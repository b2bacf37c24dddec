/**
 * The plan's entities. Rooms own lists of doors, windows and furniture; each
 * child keeps a back-reference to its room. Every entity is an integer
 * rectangle whose position can change in place, so each is a class; widths,
 * heights, directions and room types never change after construction and are
 * constants.
 */
module Model {
  import opened Geometry
  import opened Placement

  /** Door.java is not part of this model. How a door follows its room when the
      room moves is therefore a parameter: from the room's new bounds and the
      door's size and direction it gives the door's new position, or None to
      leave the door where it is. */
  type DoorPlacer = (Rect, int, int, string) -> Option<Point>

  /** Where the placer puts a door of the given size on the given wall of a
      room with the given bounds. */
  function DoorRelocation(place: DoorPlacer, room: Rect, width: int, height: int, direction: string): Option<Point>
  {
    place(room, width, height, direction)
  }

  /** The position after a repositioning that may decline to move. */
  function Relocated(target: Option<Point>, current: Point): Point
  {
    if target.Some? then target.value else current
  }

  /** PlanWindow.updatePositionRelativeToRoom's arithmetic: centred on the named
      wall; a West window sits flush with the room's west edge, inside the room. */
  function WindowRelocation(room: Rect, width: int, height: int, direction: string): (o: Option<Point>)
    ensures o.Some? <==> IsDirection(direction)
    ensures o.Some? && IsHorizontalWall(direction) ==> -1 <= 2 * (o.value.x - room.x) + width - room.width <= 1
    ensures o.Some? && !IsHorizontalWall(direction) ==> -1 <= 2 * (o.value.y - room.y) + height - room.height <= 1
    ensures o.Some? && direction == NORTH ==> o.value.y == room.y
    ensures o.Some? && direction == SOUTH ==> o.value.y == room.y + room.height
    ensures o.Some? && direction == EAST ==> o.value.x == room.x + room.width
    ensures o.Some? && direction == WEST ==> o.value.x == room.x
  {
    if direction == NORTH then Some(Point(room.x + JavaDiv(room.width - width, 2), room.y))
    else if direction == SOUTH then Some(Point(room.x + JavaDiv(room.width - width, 2), room.y + room.height))
    else if direction == EAST then Some(Point(room.x + room.width, room.y + JavaDiv(room.height - height, 2)))
    else if direction == WEST then Some(Point(room.x, room.y + JavaDiv(room.height - height, 2)))
    else None
  }

  /** Re-centring a window agrees with its first placement on the North, South and
      East walls; on the West wall the first placement is one window width further
      west, outside the room. */
  lemma WindowRelocationVersusFirstPlacement(room: Rect, width: int, height: int, direction: string)
    ensures direction != WEST ==>
              WindowRelocation(room, width, height, direction) == WallItemOrigin(room, direction, width, height)
    ensures direction == WEST ==>
              WindowRelocation(room, width, height, direction).value.x
                == WallItemOrigin(room, direction, width, height).value.x + width
  {
  }

  /** A window that fitted its wall still fits after its room moves and the
      window is re-centred: the wall keeps its length. */
  lemma RelocatedWindowStaysOnWall(oldRoom: Rect, newRoom: Rect, window: Rect, direction: string)
    requires oldRoom.width == newRoom.width && oldRoom.height == newRoom.height
    requires IsWithinWallBounds(oldRoom, window, direction)
    ensures var p := WindowRelocation(newRoom, window.width, window.height, direction).value;
            IsWithinWallBounds(newRoom, Rect(p.x, p.y, window.width, window.height), direction)
  {
    if IsHorizontalWall(direction) {
      var q := JavaDiv(newRoom.width - window.width, 2);
      assert 0 <= q * 2 <= newRoom.width - window.width;
    } else {
      var q := JavaDiv(newRoom.height - window.height, 2);
      assert 0 <= q * 2 <= newRoom.height - window.height;
    }
  }

  /** The normalisation of Furniture.setAngle: ((a % 360) + 360) % 360 with
      Java's remainder. */
  function NormalizeAngle(a: int): (r: int)
    ensures 0 <= r < 360
    ensures r == a % 360
  {
    var t := JavaRem(a, 360);
    assert t == a - JavaDiv(a, 360) * 360;
    var u := JavaRem(t + 360, 360);
    assert u == t + 360 - JavaDiv(t + 360, 360) * 360;
    u
  }

  /** Four quarter turns clockwise bring a normalised angle back. */
  lemma FourClockwiseTurnsIdentity(a: int)
    requires 0 <= a < 360
    ensures NormalizeAngle(NormalizeAngle(NormalizeAngle(NormalizeAngle(a + 90) + 90) + 90) + 90) == a
  {
    var t1 := NormalizeAngle(a + 90);
    QuarterTurnWraps(a);
    var t2 := NormalizeAngle(t1 + 90);
    QuarterTurnWraps(t1);
    var t3 := NormalizeAngle(t2 + 90);
    QuarterTurnWraps(t2);
    QuarterTurnWraps(t3);
  }

  /** A clockwise quarter turn of a normalised angle wraps past 360 at most once. */
  lemma QuarterTurnWraps(a: int)
    requires 0 <= a < 360
    ensures NormalizeAngle(a + 90) == if a < 270 then a + 90 else a - 270
  {
  }

  /** A clockwise turn followed by a counter-clockwise turn restores a normalised
      angle, and so does the reverse order. */
  lemma TurnsCancel(a: int)
    requires 0 <= a < 360
    ensures NormalizeAngle(NormalizeAngle(a + 90) - 90) == a
    ensures NormalizeAngle(NormalizeAngle(a - 90) + 90) == a
  {
    var cw := NormalizeAngle(a + 90);
    assert cw == if a < 270 then a + 90 else a - 270;
    var ccw := NormalizeAngle(a - 90);
    assert ccw == if a < 90 then a + 270 else a - 90;
  }

  /** Starting from 0, turning keeps the angle in {0, 90, 180, 270}. */
  lemma TurnsStayQuarter(a: int)
    requires a % 90 == 0
    ensures NormalizeAngle(a + 90) in {0, 90, 180, 270}
    ensures NormalizeAngle(a - 90) in {0, 90, 180, 270}
  {
    var k := a / 90;
    assert a == 90 * k;
    QuarterRemainder(k + 1);
    QuarterRemainder(k - 1);
  }

  /** A whole number of quarter turns leaves a quarter-turn remainder. */
  lemma QuarterRemainder(k: int)
    ensures (90 * k) % 360 in {0, 90, 180, 270}
  {
    var q, r := (90 * k) / 360, (90 * k) % 360;
    assert 90 * k == 360 * q + r;
    assert r == 90 * (k - 4 * q);
  }

  /** A door on one wall of its room. Its position follows the room through a
      DoorPlacer, since the door's own repositioning code is not part of this model. */
  class Door {
    var x: int
    var y: int
    const width: int
    const height: int
    const direction: string
    var room: Room?

    constructor (width: int, height: int, direction: string)
      ensures this.width == width && this.height == height && this.direction == direction
      ensures x == 0 && y == 0 && room == null
    {
      this.width := width;
      this.height := height;
      this.direction := direction;
      x, y := 0, 0;
      room := null;
    }

    function Bounds(): Rect
      reads this
    {
      Rect(x, y, width, height)
    }

    function Position(): Point
      reads this
    {
      Point(x, y)
    }

    method SetPosition(p: Point)
      modifies this`x, this`y
      ensures Position() == p
    {
      x, y := p.x, p.y;
    }

    method SetRoom(r: Room?)
      modifies this`room
      ensures room == r
    {
      room := r;
    }

    /** Sets the back-reference and moves the door to where the placer puts
        it on its wall of `r`, as PlanWindow's counterpart does for windows. */
    method UpdatePositionRelativeToRoom(r: Room, place: DoorPlacer)
      modifies this`x, this`y, this`room
      ensures room == r
      ensures Position() == Relocated(DoorRelocation(place, r.Bounds(), width, height, direction), old(Position()))
    {
      room := r;
      var target := DoorRelocation(place, r.Bounds(), width, height, direction);
      if target.Some? {
        x, y := target.value.x, target.value.y;
      }
    }
  }

  class PlanWindow {
    var x: int
    var y: int
    const width: int
    const height: int
    const direction: string
    var room: Room?

    constructor (width: int, height: int, direction: string)
      ensures this.width == width && this.height == height && this.direction == direction
      ensures x == 0 && y == 0 && room == null
    {
      this.width := width;
      this.height := height;
      this.direction := direction;
      x, y := 0, 0;
      room := null;
    }

    function Bounds(): Rect
      reads this
    {
      Rect(x, y, width, height)
    }

    function Position(): Point
      reads this
    {
      Point(x, y)
    }

    method SetPosition(p: Point)
      modifies this`x, this`y
      ensures Position() == p
    {
      x, y := p.x, p.y;
    }

    method SetRoom(r: Room?)
      modifies this`room
      ensures room == r
    {
      room := r;
    }

    /** Sets the back-reference and re-centres the window on its wall of `r`;
        an unknown direction leaves the position alone. Calling it again with
        the same room changes nothing more. */
    method UpdatePositionRelativeToRoom(r: Room)
      modifies this`x, this`y, this`room
      ensures room == r
      ensures Position() == Relocated(WindowRelocation(r.Bounds(), width, height, direction), old(Position()))
    {
      room := r;
      var target := WindowRelocation(r.Bounds(), width, height, direction);
      if target.Some? {
        x, y := target.value.x, target.value.y;
      }
    }
  }

  class Furniture {
    var x: int
    var y: int
    const width: int
    const height: int
    const furnitureType: string
    var room: Room?
    var angle: int

    constructor (width: int, height: int, furnitureType: string, room: Room?)
      ensures this.width == width && this.height == height && this.furnitureType == furnitureType
      ensures this.room == room && x == 0 && y == 0 && angle == 0
    {
      this.width := width;
      this.height := height;
      this.furnitureType := furnitureType;
      this.room := room;
      x, y := 0, 0;
      angle := 0;
    }

    function Bounds(): Rect
      reads this
    {
      Rect(x, y, width, height)
    }

    function Position(): Point
      reads this
    {
      Point(x, y)
    }

    method SetPosition(p: Point)
      modifies this`x, this`y
      ensures Position() == p && angle == old(angle)
    {
      x, y := p.x, p.y;
    }

    method SetRoom(r: Room?)
      modifies this`room
      ensures room == r
    {
      room := r;
    }

    method SetAngle(a: int)
      modifies this`angle
      ensures angle == NormalizeAngle(a)
    {
      angle := NormalizeAngle(a);
    }

    method RotateClockwise()
      modifies this`angle
      ensures angle == NormalizeAngle(old(angle) + 90)
      ensures Position() == old(Position())
    {
      SetAngle(angle + 90);
    }

    method RotateCounterClockwise()
      modifies this`angle
      ensures angle == NormalizeAngle(old(angle) - 90)
      ensures Position() == old(Position())
    {
      SetAngle(angle - 90);
    }
  }

  class Room {
    var x: int
    var y: int
    const width: int
    const height: int
    const roomType: string
    var name: Option<string>
    var doors: seq<Door>
    var windows: seq<PlanWindow>
    var furnitures: seq<Furniture>

    constructor (x: int, y: int, width: int, height: int, roomType: string, name: Option<string>)
      ensures this.x == x && this.y == y && this.width == width && this.height == height
      ensures this.roomType == roomType && this.name == name
      ensures doors == [] && windows == [] && furnitures == []
    {
      this.x, this.y := x, y;
      this.width, this.height := width, height;
      this.roomType := roomType;
      this.name := name;
      doors, windows, furnitures := [], [], [];
    }

    function Bounds(): Rect
      reads this
    {
      Rect(x, y, width, height)
    }

    function Position(): Point
      reads this
    {
      Point(x, y)
    }

    predicate Contains(p: Point)
      reads this
    {
      Geometry.Contains(Bounds(), p)
    }

    predicate IntersectsRect(other: Rect)
      reads this
    {
      Geometry.Intersects(Bounds(), other)
    }

    method SetName(n: Option<string>)
      modifies this`name
      ensures name == n
    {
      name := n;
    }

    ghost function DoorSet(): set<Door>
      reads this
    {
      set d | d in doors
    }

    ghost function WindowSet(): set<PlanWindow>
      reads this
    {
      set w | w in windows
    }

    /** Everything setPosition may change: the room and its doors and windows. */
    ghost function Footprint(): set<object>
      reads this
    {
      {this} + DoorSet() + WindowSet()
    }

    /** The effect of moving to `p`: the room is at `p`, every door has been
        through the placer and every window re-centred (each against the new
        bounds), and nothing else about them changed. */
    twostate predicate MovedTo(p: Point, place: DoorPlacer)
      reads this, DoorSet(), WindowSet()
    {
      && Position() == p
      && doors == old(doors) && windows == old(windows) && furnitures == old(furnitures)
      && name == old(name)
      && (forall d :: d in doors ==>
            d.room == this &&
            d.Position() == Relocated(DoorRelocation(place, Bounds(), d.width, d.height, d.direction), old(d.Position())))
      && (forall w :: w in windows ==>
            w.room == this &&
            w.Position() == Relocated(WindowRelocation(Bounds(), w.width, w.height, w.direction), old(w.Position())))
    }

    /** Room.setPosition: move the room, then re-place every door and every
        window against the new bounds. Furniture stays where it is. */
    method SetPosition(p: Point, place: DoorPlacer)
      modifies this`x, this`y, DoorSet(), WindowSet()
      ensures MovedTo(p, place)
      ensures forall f :: f in furnitures ==> f.Position() == old(f.Position())
    {
      x, y := p.x, p.y;
      var i := 0;
      while i < |doors|
        invariant 0 <= i <= |doors|
        invariant Position() == p
        invariant forall d :: d in doors[..i] ==>
                    d.room == this &&
                    d.Position() == Relocated(DoorRelocation(place, Bounds(), d.width, d.height, d.direction), old(d.Position()))
        invariant forall d :: d in doors && d !in doors[..i] ==> d.Position() == old(d.Position())
        invariant forall w :: w in windows ==> unchanged(w)
      {
        doors[i].UpdatePositionRelativeToRoom(this, place);
        assert doors[..i + 1] == doors[..i] + [doors[i]];
        i := i + 1;
      }
      var j := 0;
      while j < |windows|
        invariant 0 <= j <= |windows|
        invariant Position() == p
        invariant forall d :: d in doors ==>
                    d.room == this &&
                    d.Position() == Relocated(DoorRelocation(place, Bounds(), d.width, d.height, d.direction), old(d.Position()))
        invariant forall w :: w in windows[..j] ==>
                    w.room == this &&
                    w.Position() == Relocated(WindowRelocation(Bounds(), w.width, w.height, w.direction), old(w.Position()))
        invariant forall w :: w in windows && w !in windows[..j] ==> unchanged(w)
      {
        windows[j].UpdatePositionRelativeToRoom(this);
        assert windows[..j + 1] == windows[..j] + [windows[j]];
        j := j + 1;
      }
      assert doors[..|doors|] == doors;
      assert windows[..|windows|] == windows;
    }

    method AddDoor(door: Door)
      modifies this`doors, door`room
      ensures doors == old(doors) + [door] && door.room == this
      ensures windows == old(windows) && furnitures == old(furnitures)
    {
      doors := doors + [door];
      door.SetRoom(this);
    }

    method AddWindow(window: PlanWindow)
      modifies this`windows, window`room
      ensures windows == old(windows) + [window] && window.room == this
      ensures doors == old(doors) && furnitures == old(furnitures)
    {
      windows := windows + [window];
      window.SetRoom(this);
    }

    method AddFurniture(furniture: Furniture)
      modifies this`furnitures, furniture`room
      ensures furnitures == old(furnitures) + [furniture] && furniture.room == this
      ensures doors == old(doors) && windows == old(windows)
    {
      furnitures := furnitures + [furniture];
      furniture.SetRoom(this);
    }
  }

  /** The PlanItem capability, as a sum over the four entity classes. */
  datatype PlanItem =
    | RoomItem(room: Room)
    | DoorItem(door: Door)
    | WindowItem(window: PlanWindow)
    | FurnitureItem(furniture: Furniture)
  {
    function Object(): object
    {
      match this
      case RoomItem(r) => r
      case DoorItem(d) => d
      case WindowItem(w) => w
      case FurnitureItem(f) => f
    }

    function Bounds(): Rect
      reads Object()
    {
      match this
      case RoomItem(r) => r.Bounds()
      case DoorItem(d) => d.Bounds()
      case WindowItem(w) => w.Bounds()
      case FurnitureItem(f) => f.Bounds()
    }
  }
}
