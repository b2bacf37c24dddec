/**
 * CanvasPanel: the plan's room and furniture lists, the row-major placement
 * cursor, the drag state and the undo/redo stacks, together with the
 * validators that guard every change and the commands that make each change
 * reversible.
 */
module Canvas {
  import opened Geometry
  import opened Placement
  import opened Model
  import opened Commands

  // ---------------------------------------------------------------- room layout

  ghost function Rooms(rs: seq<Room>): set<Room>
  {
    set r | r in rs
  }

  /** No two distinct rooms of the list intersect. */
  predicate Disjoint(rs: seq<Room>)
    reads Rooms(rs)
  {
    forall i, j :: 0 <= i < |rs| && 0 <= j < |rs| && rs[i] != rs[j] ==>
      !Intersects(rs[i].Bounds(), rs[j].Bounds())
  }

  /** No two distinct rooms of the list intersect, leaving `room` out of account. */
  predicate DisjointExcept(rs: seq<Room>, room: Room)
    reads Rooms(rs)
  {
    forall i, j :: 0 <= i < |rs| && 0 <= j < |rs| && rs[i] != rs[j] && rs[i] != room && rs[j] != room ==>
      !Intersects(rs[i].Bounds(), rs[j].Bounds())
  }

  /** `area` meets no room of the list other than `room`: the negation of
      checkRoomOverlap for `room` placed on `area`. */
  predicate ClearOf(rs: seq<Room>, room: Room?, area: Rect)
    reads Rooms(rs)
  {
    forall i :: 0 <= i < |rs| && rs[i] != room ==> !Intersects(rs[i].Bounds(), area)
  }

  /** A layout is disjoint exactly when it is disjoint apart from one room and
      that room, if listed, is clear of the others. */
  lemma DisjointSplit(rs: seq<Room>, room: Room)
    ensures DisjointExcept(rs, room) && ClearOf(rs, room, room.Bounds()) ==> Disjoint(rs)
    ensures room in rs && Disjoint(rs) ==> DisjointExcept(rs, room) && ClearOf(rs, room, room.Bounds())
  {
    if DisjointExcept(rs, room) && ClearOf(rs, room, room.Bounds()) {
      forall i, j | 0 <= i < |rs| && 0 <= j < |rs| && rs[i] != rs[j]
        ensures !Intersects(rs[i].Bounds(), rs[j].Bounds())
      {
        if rs[j] == room {
          IntersectsSymmetric(rs[i].Bounds(), rs[j].Bounds());
        }
      }
    }
    if room in rs && Disjoint(rs) {
      var k :| 0 <= k < |rs| && rs[k] == room;
      forall i | 0 <= i < |rs| && rs[i] != room
        ensures !Intersects(rs[i].Bounds(), room.Bounds())
      {
        assert rs[k] == room;
      }
    }
  }

  /** Appending a room that is clear of the others keeps a layout disjoint. */
  lemma DisjointAppend(rs: seq<Room>, room: Room)
    requires Disjoint(rs) && ClearOf(rs, room, room.Bounds())
    ensures Disjoint(rs + [room])
  {
    var t := rs + [room];
    forall i, j | 0 <= i < |t| && 0 <= j < |t| && t[i] != t[j]
      ensures !Intersects(t[i].Bounds(), t[j].Bounds())
    {
      if i == |rs| {
        IntersectsSymmetric(t[i].Bounds(), t[j].Bounds());
        assert t[j] == rs[j];
      } else if j < |rs| {
        assert t[i] == rs[i] && t[j] == rs[j];
      }
    }
  }

  /** Removing a room keeps a layout disjoint. */
  lemma DisjointRemove(rs: seq<Room>, room: Room)
    requires Disjoint(rs)
    ensures Disjoint(RemoveFirst(rs, room))
  {
    var t := RemoveFirst(rs, room);
    RemoveFirstMultiset(rs, room);
    forall i, j | 0 <= i < |t| && 0 <= j < |t| && t[i] != t[j]
      ensures !Intersects(t[i].Bounds(), t[j].Bounds())
    {
      assert t[i] in multiset(t) && t[j] in multiset(t);
      assert multiset(t) <= multiset(rs);
      assert t[i] in rs && t[j] in rs;
      var a :| 0 <= a < |rs| && rs[a] == t[i];
      var b :| 0 <= b < |rs| && rs[b] == t[j];
    }
  }

  ghost function DoorObjects(ds: seq<Door>): set<object>
  {
    set d | d in ds
  }

  ghost function WindowObjects(ws: seq<PlanWindow>): set<object>
  {
    set w | w in ws
  }

  ghost function FurnitureObjects(fs: seq<Furniture>): set<object>
  {
    set f | f in fs
  }

  // ---------------------------------------------------------------- hit tests

  /** The index of the first piece of furniture containing `p`, or |fs| when none does. */
  function FurnitureAt(fs: seq<Furniture>, p: Point): (i: nat)
    reads set f | f in fs
    ensures i <= |fs|
    ensures i < |fs| ==> Contains(fs[i].Bounds(), p)
    ensures forall j :: 0 <= j < i ==> !Contains(fs[j].Bounds(), p)
  {
    if fs == [] then 0
    else if Contains(fs[0].Bounds(), p) then 0
    else 1 + FurnitureAt(fs[1..], p)
  }

  /** The index of the first room containing `p`, or |rs| when none does. */
  function RoomAt(rs: seq<Room>, p: Point): (i: nat)
    reads Rooms(rs)
    ensures i <= |rs|
    ensures i < |rs| ==> Contains(rs[i].Bounds(), p)
    ensures forall j :: 0 <= j < i ==> !Contains(rs[j].Bounds(), p)
  {
    if rs == [] then 0
    else if Contains(rs[0].Bounds(), p) then 0
    else 1 + RoomAt(rs[1..], p)
  }

  // ---------------------------------------------------------------- doors and windows of a room

  function DoorRects(ds: seq<Door>): (rs: seq<Rect>)
    reads set d | d in ds
    ensures |rs| == |ds| && forall i :: 0 <= i < |ds| ==> rs[i] == ds[i].Bounds()
  {
    if ds == [] then [] else [ds[0].Bounds()] + DoorRects(ds[1..])
  }

  function WindowRects(ws: seq<PlanWindow>): (rs: seq<Rect>)
    reads set w | w in ws
    ensures |rs| == |ws| && forall i :: 0 <= i < |ws| ==> rs[i] == ws[i].Bounds()
  {
    if ws == [] then [] else [ws[0].Bounds()] + WindowRects(ws[1..])
  }

  /** The rectangles of a room's doors and windows. */
  function ItemRects(room: Room): seq<Rect>
    reads room, room.DoorSet(), room.WindowSet()
  {
    DoorRects(room.doors) + WindowRects(room.windows)
  }

  /** Some door of the room is on the wall facing `direction`. */
  predicate DoorOnWall(room: Room, direction: string)
    reads room
  {
    exists i :: 0 <= i < |room.doors| && room.doors[i].direction == direction
  }

  /** isOverlappingDoorOrWindow: a door or window of the room, other than the
      item itself, intersects the item. Only doors and windows are compared. */
  predicate OverlapsDoorOrWindow(room: Room, item: PlanItem)
    reads room, room.DoorSet(), room.WindowSet(), item.Object()
  {
    (item.DoorItem? || item.WindowItem?) &&
    ((exists i :: 0 <= i < |room.doors| && room.doors[i] != item.Object() &&
                  Intersects(room.doors[i].Bounds(), item.Bounds())) ||
     (exists i :: 0 <= i < |room.windows| && room.windows[i] != item.Object() &&
                  Intersects(room.windows[i].Bounds(), item.Bounds())))
  }

  /** For a new door or window, not yet in the room's lists, the identity test
      never fires and the check is a collision test against all of the room's
      doors and windows, on every wall. */
  lemma NewItemOverlap(room: Room, item: PlanItem)
    requires item.DoorItem? || item.WindowItem?
    requires item.Object() !in room.doors && item.Object() !in room.windows
    ensures OverlapsDoorOrWindow(room, item) <==> OverlapsAny(ItemRects(room), item.Bounds())
  {
    var rects, nd := ItemRects(room), |room.doors|;
    if OverlapsAny(rects, item.Bounds()) {
      var k :| 0 <= k < |rects| && Intersects(rects[k], item.Bounds());
      if k < nd {
        assert rects[k] == room.doors[k].Bounds();
        assert room.doors[k] in room.doors;
      } else {
        assert rects[k] == room.windows[k - nd].Bounds();
        assert room.windows[k - nd] in room.windows;
      }
    }
    if OverlapsDoorOrWindow(room, item) {
      if exists i :: 0 <= i < nd && room.doors[i] != item.Object() &&
                     Intersects(room.doors[i].Bounds(), item.Bounds()) {
        var i :| 0 <= i < nd && room.doors[i] != item.Object() && Intersects(room.doors[i].Bounds(), item.Bounds());
        assert rects[i] == room.doors[i].Bounds();
      } else {
        var i :| 0 <= i < |room.windows| && room.windows[i] != item.Object() &&
                 Intersects(room.windows[i].Bounds(), item.Bounds());
        assert rects[nd + i] == room.windows[i].Bounds();
      }
    }
  }

  /** A new door of the given size, placed at `origin` and then snapped to
      the grid, as addDoorToRoom builds it before any check. */
  method NewDoor(width: int, height: int, direction: string, origin: Point) returns (door: Door)
    ensures fresh(door)
    ensures door.Bounds() == Rect(SnapToGrid(origin).x, SnapToGrid(origin).y, width, height)
    ensures door.direction == direction && door.room == null
  {
    door := new Door(width, height, direction);
    door.SetPosition(origin);
    door.SetPosition(SnapToGrid(door.Position()));
  }

  /** A new window, built as NewDoor builds a door (addWindowToRoom). */
  method NewWindow(width: int, height: int, direction: string, origin: Point) returns (window: PlanWindow)
    ensures fresh(window)
    ensures window.Bounds() == Rect(SnapToGrid(origin).x, SnapToGrid(origin).y, width, height)
    ensures window.direction == direction && window.room == null
  {
    window := new PlanWindow(width, height, direction);
    window.SetPosition(origin);
    window.SetPosition(SnapToGrid(window.Position()));
  }

  // ---------------------------------------------------------------- plan snapshots

  /** The parts of a room that commands change. */
  datatype RoomState = RoomState(position: Point, name: Option<string>, doors: seq<Door>,
                                 windows: seq<PlanWindow>, furnitures: seq<Furniture>)

  /** A door's or window's position; a piece of furniture's position and angle. */
  datatype ItemState = ItemState(position: Point, angle: Option<int>)

  /** The canvas lists, with the state of the room and of the item a command names. */
  datatype PlanState = PlanState(rooms: seq<Room>, furnitures: seq<Furniture>,
                                 room: Option<RoomState>, item: Option<ItemState>)

  function StateOf(r: Room): RoomState
    reads r
  {
    RoomState(r.Position(), r.name, r.doors, r.windows, r.furnitures)
  }

  class CanvasPanel {
    var rooms: seq<Room>
    var furnitures: seq<Furniture>
    var roomToHighlight: Room?
    var selectedFurniture: Furniture?
    var draggingRoom: Room?
    var draggingFurniture: Furniture?
    var dragOffset: Point
    var furnitureDragOffset: Point
    var originalPosition: Point
    var selectedRoom: Room?
    var nextRoomX: int
    var nextRoomY: int
    var undoStack: seq<Command>
    var redoStack: seq<Command>
    /** How doors follow a moved room (Door.java is not part of this model). */
    const doorPlacer: DoorPlacer

    constructor (doorPlacer: DoorPlacer)
      ensures this.doorPlacer == doorPlacer
      ensures rooms == [] && furnitures == [] && undoStack == [] && redoStack == []
      ensures nextRoomX == 0 && nextRoomY == 0
      ensures roomToHighlight == null && selectedFurniture == null && selectedRoom == null
      ensures draggingRoom == null && draggingFurniture == null
    {
      this.doorPlacer := doorPlacer;
      rooms, furnitures := [], [];
      roomToHighlight, selectedFurniture, selectedRoom := null, null, null;
      draggingRoom, draggingFurniture := null, null;
      dragOffset, furnitureDragOffset, originalPosition := Point(0, 0), Point(0, 0), Point(0, 0);
      nextRoomX, nextRoomY := 0, 0;
      undoStack, redoStack := [], [];
    }

    ghost function RoomSet(): set<Room>
      reads this
    {
      Rooms(rooms)
    }

    function Stacks(): History
      reads this
    {
      History(undoStack, redoStack)
    }

    predicate NoOverlap()
      reads this, RoomSet()
    {
      Disjoint(rooms)
    }

    /** The test of checkRoomOverlap for `room` placed on `area`. */
    predicate OverlapsOtherRoom(room: Room, area: Rect)
      reads this, RoomSet()
    {
      !ClearOf(rooms, room, area)
    }

    /** The test of isWallShared: some room other than `room` shares its
        `direction` wall. */
    predicate WallShared(room: Room, direction: string)
      reads this, RoomSet(), room
    {
      exists i :: 0 <= i < |rooms| && rooms[i] != room && SharesWall(room.Bounds(), rooms[i].Bounds(), direction)
    }

    // ---------------------------------------------------------------- validators

    method CheckRoomOverlap(newRoom: Room) returns (overlap: bool)
      ensures overlap == OverlapsOtherRoom(newRoom, newRoom.Bounds())
    {
      var i := 0;
      while i < |rooms|
        invariant 0 <= i <= |rooms|
        invariant forall k :: 0 <= k < i && rooms[k] != newRoom ==> !Intersects(rooms[k].Bounds(), newRoom.Bounds())
      {
        if rooms[i] != newRoom && rooms[i].IntersectsRect(newRoom.Bounds()) {
          return true;
        }
        i := i + 1;
      }
      return false;
    }

    method IsWallShared(room: Room, direction: string) returns (shared: bool)
      ensures shared == WallShared(room, direction)
    {
      var i := 0;
      while i < |rooms|
        invariant 0 <= i <= |rooms|
        invariant forall k :: 0 <= k < i && rooms[k] != room ==> !SharesWall(room.Bounds(), rooms[k].Bounds(), direction)
      {
        var other := rooms[i];
        if other != room && SharesWall(room.Bounds(), other.Bounds(), direction) {
          return true;
        }
        i := i + 1;
      }
      return false;
    }

    /** The door scan of addWindowToRoom: does a door of the room face `direction`? */
    method HasDoorOnWall(room: Room, direction: string) returns (found: bool)
      ensures found <==> DoorOnWall(room, direction)
    {
      var i := 0;
      while i < |room.doors|
        invariant 0 <= i <= |room.doors|
        invariant forall k :: 0 <= k < i ==> room.doors[k].direction != direction
      {
        if room.doors[i].direction == direction {
          return true;
        }
        i := i + 1;
      }
      return false;
    }

    method IsOverlappingDoorOrWindow(room: Room, item: PlanItem) returns (overlap: bool)
      ensures overlap == OverlapsDoorOrWindow(room, item)
    {
      if !(item.DoorItem? || item.WindowItem?) {
        return false;
      }
      var i := 0;
      while i < |room.doors|
        invariant 0 <= i <= |room.doors|
        invariant forall k :: 0 <= k < i && room.doors[k] != item.Object() ==>
                    !Intersects(room.doors[k].Bounds(), item.Bounds())
      {
        if room.doors[i] != item.Object() && Intersects(room.doors[i].Bounds(), item.Bounds()) {
          return true;
        }
        i := i + 1;
      }
      var j := 0;
      while j < |room.windows|
        invariant 0 <= j <= |room.windows|
        invariant forall k :: 0 <= k < j && room.windows[k] != item.Object() ==>
                    !Intersects(room.windows[k].Bounds(), item.Bounds())
      {
        if room.windows[j] != item.Object() && Intersects(room.windows[j].Bounds(), item.Bounds()) {
          return true;
        }
        j := j + 1;
      }
      return false;
    }

    // ---------------------------------------------------------------- stacks

    method PushUndo(c: Command)
      modifies this`undoStack
      ensures undoStack == old(undoStack) + [c]
    {
      undoStack := undoStack + [c];
    }

    method PushRedo(c: Command)
      modifies this`redoStack
      ensures redoStack == old(redoStack) + [c]
    {
      redoStack := redoStack + [c];
    }

    method ClearRedo()
      modifies this`redoStack
      ensures redoStack == []
    {
      redoStack := [];
    }

    // ---------------------------------------------------------------- adding rooms

    /** addRoom: a room at the cursor, rejected when it overlaps a room; on
        success it is recorded and the cursor advances. */
    method AddRoom(roomType: string, width: int, height: int, name: Option<string>, canvasWidth: int)
      returns (outcome: Outcome)
      modifies this`rooms, this`undoStack, this`redoStack, this`nextRoomX, this`nextRoomY
      ensures var area := Rect(old(nextRoomX), old(nextRoomY), width, height);
              outcome.Accepted? <==> ClearOf(old(rooms), null, area)
      ensures outcome.Rejected? ==>
                outcome.error == OverlapError && rooms == old(rooms) && Stacks() == old(Stacks()) &&
                nextRoomX == old(nextRoomX) && nextRoomY == old(nextRoomY)
      ensures outcome.Accepted? ==>
                && |rooms| == |old(rooms)| + 1 && rooms[..|old(rooms)|] == old(rooms)
                && var room := rooms[|old(rooms)|];
                   && fresh(room)
                   && room.Bounds() == Rect(old(nextRoomX), old(nextRoomY), width, height)
                   && room.roomType == roomType && room.name == name
                   && room.doors == [] && room.windows == [] && room.furnitures == []
                   && Stacks() == Record(old(Stacks()), AddRoomCommand(room))
                   && Point(nextRoomX, nextRoomY) ==
                        AdvanceCursor(Point(old(nextRoomX), old(nextRoomY)), width, height, canvasWidth)
      ensures old(NoOverlap()) ==> NoOverlap()
    {
      ghost var cursor := Point(nextRoomX, nextRoomY);
      var newRoom := new Room(nextRoomX, nextRoomY, width, height, roomType, name);
      var overlap := CheckRoomOverlap(newRoom);
      assert newRoom !in rooms;
      assert overlap == !ClearOf(rooms, null, newRoom.Bounds());
      if overlap {
        return Rejected(OverlapError);
      }
      // The stacks and the cursor are not read by the list, so updating them
      // before appending the room changes nothing.
      PushUndo(AddRoomCommand(newRoom));
      redoStack := [];
      nextRoomX := nextRoomX + width;
      if nextRoomX + width > canvasWidth {
        nextRoomX := 0;
        nextRoomY := nextRoomY + height;
      }
      assert Point(nextRoomX, nextRoomY) == AdvanceCursor(cursor, width, height, canvasWidth);
      ghost var before := rooms;
      rooms := rooms + [newRoom];
      if Disjoint(before) {
        DisjointAppend(before, newRoom);
      }
      return Accepted;
    }

    /** addRelativeRoom: a room against the chosen wall of `baseRoom` with the
        chosen alignment; an unknown direction or alignment, or an overlap,
        changes nothing. The cursor is never touched. */
    method AddRelativeRoom(baseRoom: Room, roomType: string, direction: string, alignment: string,
                           width: int, height: int, name: Option<string>)
      returns (outcome: Outcome)
      modifies this`rooms, this`undoStack, this`redoStack
      ensures var position := RelativePosition(baseRoom.Bounds(), direction, alignment, width, height);
              && (position.None? ==> outcome == Rejected(PlacementError))
              && (position.Some? ==>
                    var area := Rect(position.value.x, position.value.y, width, height);
                    outcome == (if ClearOf(old(rooms), null, area) then Accepted else Rejected(OverlapError)))
              && (outcome.Accepted? ==>
                    && |rooms| == |old(rooms)| + 1 && rooms[..|old(rooms)|] == old(rooms)
                    && var room := rooms[|old(rooms)|];
                       && fresh(room)
                       && room.Bounds() == Rect(position.value.x, position.value.y, width, height)
                       && room.roomType == roomType && room.name == name
                       && room.doors == [] && room.windows == [] && room.furnitures == []
                       && Stacks() == Record(old(Stacks()), AddRelativeRoomCommand(room)))
      ensures outcome.Rejected? ==> rooms == old(rooms) && Stacks() == old(Stacks())
      ensures old(NoOverlap()) ==> NoOverlap()
    {
      var position := RelativePosition(baseRoom.Bounds(), direction, alignment, width, height);
      if position.None? {
        return Rejected(PlacementError);
      }
      var newRoom := new Room(position.value.x, position.value.y, width, height, roomType, name);
      var overlap := CheckRoomOverlap(newRoom);
      if overlap {
        return Rejected(OverlapError);
      }
      // The stacks are not read by the list, so updating them before
      // appending the room changes nothing.
      PushUndo(AddRelativeRoomCommand(newRoom));
      redoStack := [];
      ghost var before := rooms;
      rooms := rooms + [newRoom];
      if Disjoint(before) {
        DisjointAppend(before, newRoom);
      }
      return Accepted;
    }

    // ---------------------------------------------------------------- doors, windows, furniture

    /** The rule checks of addDoorToRoom on a selected room, in the source's
        order; nothing that exists is changed. */
    method PrepareDoor(room: Room, direction: string, length: int, canvasWidth: int, canvasHeight: int)
      returns (d: Decision, door: Door?)
      ensures d == DoorDecision(old(room.Bounds()), room.roomType, direction, length, canvasWidth, canvasHeight,
                                old(WallShared(room, direction)), old(ItemRects(room)))
      ensures d.Accept? ==> door != null && fresh(door) && door.Bounds() == d.rect &&
                            door.direction == direction && door.room == null
    {
      var privateRoom := IsPrivateRoom(room.roomType);
      if privateRoom && IsExternalWall(room.Bounds(), direction, canvasWidth, canvasHeight) {
        return Reject(RuleViolation), null;
      }
      if length <= 0 {
        return Reject(InvalidInput), null;
      }
      var shared := IsWallShared(room, direction);
      if privateRoom && !shared {
        return Reject(RuleViolation), null;
      }
      d, door := PlaceDoor(room, direction, length);
    }

    /** The placement checks of addDoorToRoom: build the door centred on the
        wall and snapped, then check it lies along the wall and overlaps no
        door or window of the room. */
    method PlaceDoor(room: Room, direction: string, length: int) returns (d: Decision, door: Door?)
      ensures d == WallPlacement(old(room.Bounds()), direction, length, DOOR_THICKNESS, old(ItemRects(room)))
      ensures d.Accept? ==> door != null && fresh(door) && door.Bounds() == d.rect &&
                            door.direction == direction && door.room == null
    {
      var width, height := DOOR_THICKNESS, length;
      if direction == NORTH || direction == SOUTH {
        width, height := length, DOOR_THICKNESS;
      }
      var origin := WallItemOrigin(room.Bounds(), direction, width, height);
      if origin.None? {
        return Reject(PlacementError), null;
      }
      door := NewDoor(width, height, direction, origin.value);
      assert WallItemRect(room.Bounds(), direction, length, DOOR_THICKNESS) == Some(door.Bounds());
      if !IsWithinWallBounds(room.Bounds(), door.Bounds(), direction) {
        return Reject(PlacementError), null;
      }
      var overlap := IsOverlappingDoorOrWindow(room, DoorItem(door));
      NewItemOverlap(room, DoorItem(door));
      if overlap {
        return Reject(OverlapError), null;
      }
      return Accept(door.Bounds()), door;
    }

    /** addDoorToRoom: no selected room, or any failed check of DoorDecision,
        changes nothing; an accepted door is appended to the room once and
        recorded. */
    method AddDoorToRoom(room: Room?, direction: string, length: int, canvasWidth: int, canvasHeight: int)
      returns (outcome: Outcome)
      modifies this`undoStack, this`redoStack, (if room == null then {} else {room})`doors
      ensures room == null ==> outcome == Rejected(NoSelection) && Stacks() == old(Stacks())
      ensures room != null ==>
                var d := DoorDecision(room.Bounds(), room.roomType, direction, length, canvasWidth, canvasHeight,
                                      old(WallShared(room, direction)), old(ItemRects(room)));
                && room.Position() == old(room.Position()) && room.name == old(room.name)
                && room.windows == old(room.windows) && room.furnitures == old(room.furnitures)
                && (d.Reject? ==> outcome == Rejected(d.error) && room.doors == old(room.doors) && Stacks() == old(Stacks()))
                && (d.Accept? ==>
                      && outcome == Accepted
                      && |room.doors| == |old(room.doors)| + 1 && room.doors[..|old(room.doors)|] == old(room.doors)
                      && var door := room.doors[|old(room.doors)|];
                         && fresh(door) && door.Bounds() == d.rect && door.direction == direction && door.room == room
                         && Stacks() == Record(old(Stacks()), AddDoorCommand(room, door)))
    {
      if room == null {
        return Rejected(NoSelection);
      }
      var d, door := PrepareDoor(room, direction, length, canvasWidth, canvasHeight);
      if d.Reject? {
        return Rejected(d.error);
      }
      room.AddDoor(door);
      PushUndo(AddDoorCommand(room, door));
      redoStack := [];
      return Accepted;
    }

    /** The rule checks of addWindowToRoom on a selected room, in the
        source's order; nothing that exists is changed. */
    method PrepareWindow(room: Room, direction: string, length: int) returns (d: Decision, window: PlanWindow?)
      ensures d == WindowDecision(old(room.Bounds()), direction, length, old(DoorOnWall(room, direction)),
                                  old(WallShared(room, direction)), old(ItemRects(room)))
      ensures d.Accept? ==> window != null && fresh(window) && window.Bounds() == d.rect &&
                            window.direction == direction && window.room == null
    {
      var doorOnWall := HasDoorOnWall(room, direction);
      if doorOnWall {
        return Reject(RuleViolation), null;
      }
      var shared := IsWallShared(room, direction);
      if shared {
        return Reject(RuleViolation), null;
      }
      if length <= 0 {
        return Reject(InvalidInput), null;
      }
      d, window := PlaceWindow(room, direction, length);
    }

    /** The placement checks of addWindowToRoom, as for doors with the
        window's thickness. */
    method PlaceWindow(room: Room, direction: string, length: int) returns (d: Decision, window: PlanWindow?)
      ensures d == WallPlacement(old(room.Bounds()), direction, length, WINDOW_THICKNESS, old(ItemRects(room)))
      ensures d.Accept? ==> window != null && fresh(window) && window.Bounds() == d.rect &&
                            window.direction == direction && window.room == null
    {
      var width, height := WINDOW_THICKNESS, length;
      if direction == NORTH || direction == SOUTH {
        width, height := length, WINDOW_THICKNESS;
      }
      var origin := WallItemOrigin(room.Bounds(), direction, width, height);
      if origin.None? {
        return Reject(PlacementError), null;
      }
      window := NewWindow(width, height, direction, origin.value);
      assert WallItemRect(room.Bounds(), direction, length, WINDOW_THICKNESS) == Some(window.Bounds());
      if !IsWithinWallBounds(room.Bounds(), window.Bounds(), direction) {
        return Reject(PlacementError), null;
      }
      var overlap := IsOverlappingDoorOrWindow(room, WindowItem(window));
      NewItemOverlap(room, WindowItem(window));
      if overlap {
        return Reject(OverlapError), null;
      }
      return Accept(window.Bounds()), window;
    }

    /** addWindowToRoom: no selected room, or any failed check of
        WindowDecision, changes nothing; an accepted window is appended to the
        room once and recorded. */
    method AddWindowToRoom(room: Room?, direction: string, length: int) returns (outcome: Outcome)
      modifies this`undoStack, this`redoStack, (if room == null then {} else {room})`windows
      ensures room == null ==> outcome == Rejected(NoSelection) && Stacks() == old(Stacks())
      ensures room != null ==>
                var d := WindowDecision(room.Bounds(), direction, length, old(DoorOnWall(room, direction)),
                                        old(WallShared(room, direction)), old(ItemRects(room)));
                && room.Position() == old(room.Position()) && room.name == old(room.name)
                && room.doors == old(room.doors) && room.furnitures == old(room.furnitures)
                && (d.Reject? ==> outcome == Rejected(d.error) && room.windows == old(room.windows) && Stacks() == old(Stacks()))
                && (d.Accept? ==>
                      && outcome == Accepted
                      && |room.windows| == |old(room.windows)| + 1 && room.windows[..|old(room.windows)|] == old(room.windows)
                      && var window := room.windows[|old(room.windows)|];
                         && fresh(window) && window.Bounds() == d.rect && window.direction == direction
                         && window.room == room
                         && Stacks() == Record(old(Stacks()), AddWindowCommand(room, window)))
    {
      if room == null {
        return Rejected(NoSelection);
      }
      var d, window := PrepareWindow(room, direction, length);
      if d.Reject? {
        return Rejected(d.error);
      }
      room.AddWindow(window);
      PushUndo(AddWindowCommand(room, window));
      redoStack := [];
      return Accepted;
    }

    /** addFurnitureToRoom: link the furniture to the room, list it on the
        canvas, record the command. */
    method AddFurnitureToRoom(room: Room, furniture: Furniture)
      modifies this`furnitures, this`undoStack, this`redoStack, room`furnitures, furniture`room
      ensures room.furnitures == old(room.furnitures) + [furniture] && furniture.room == room
      ensures furnitures == old(furnitures) + [furniture]
      ensures Stacks() == Record(old(Stacks()), AddFurnitureCommand(room, furniture))
    {
      room.AddFurniture(furniture);
      furnitures := furnitures + [furniture];
      PushUndo(AddFurnitureCommand(room, furniture));
      redoStack := [];
    }

    /** rotateFurniture: a quarter turn, recorded with the position before and
        after, which the turn leaves equal. */
    method RotateFurniture(furniture: Furniture, clockwise: bool)
      modifies furniture`angle, this`undoStack, this`redoStack
      ensures furniture.angle == NormalizeAngle(old(furniture.angle) + if clockwise then 90 else -90)
      ensures furniture.Position() == old(furniture.Position())
      ensures Stacks() == Record(old(Stacks()),
                                 RotateFurnitureCommand(furniture, old(furniture.Position()), old(furniture.Position())))
    {
      var oldPosition := furniture.Position();
      if clockwise {
        furniture.RotateClockwise();
      } else {
        furniture.RotateCounterClockwise();
      }
      var newPosition := furniture.Position();
      PushUndo(RotateFurnitureCommand(furniture, oldPosition, newPosition));
      redoStack := [];
    }

    // ---------------------------------------------------------------- commands

    /** The objects, besides the canvas's own lists, that executing `c` may change. */
    ghost function ExecuteTargets(c: Command): (targets: set<object>)
      reads if c.MoveRoomCommand? then {c.room} else {}
      ensures this !in targets
    {
      match c
      case AddRoomCommand(_) => {}
      case AddRelativeRoomCommand(_) => {}
      case DeleteRoomCommand(_, _, _, _) => {}
      case MoveRoomCommand(r, _, _) => r.Footprint()
      case AddDoorCommand(r, d) => {r, d}
      case AddWindowCommand(r, w) => {r, w}
      case AddFurnitureCommand(r, f) => {r, f}
      case MoveFurnitureCommand(f, _, _) => {f}
      case RotateFurnitureCommand(_, _, _) => {}
    }

    /** The objects, besides the canvas's own lists, that undoing `c` may change. */
    ghost function UndoTargets(c: Command): (targets: set<object>)
      reads if c.MoveRoomCommand? then {c.room} else {}
      ensures this !in targets
    {
      match c
      case AddRoomCommand(_) => {}
      case AddRelativeRoomCommand(_) => {}
      case DeleteRoomCommand(r, ds, ws, fs) => {r as object} + DoorObjects(ds) + WindowObjects(ws) + FurnitureObjects(fs)
      case MoveRoomCommand(r, _, _) => r.Footprint()
      case AddDoorCommand(r, _) => {r}
      case AddWindowCommand(r, _) => {r}
      case AddFurnitureCommand(r, _) => {r}
      case MoveFurnitureCommand(f, _, _) => {f}
      case RotateFurnitureCommand(f, _, _) => {f}
    }

    /** AddRoomCommand.execute() and AddRelativeRoomCommand.execute(): the room is appended. */
    twostate predicate RoomAppended(r: Room)
      reads this`rooms, this`furnitures
    {
      rooms == old(rooms) + [r] && furnitures == old(furnitures)
    }

    /** AddRoomCommand.undo() and AddRelativeRoomCommand.undo(): the first
        occurrence of the room leaves the list. */
    twostate predicate RoomRemoved(r: Room)
      reads this`rooms, this`furnitures
    {
      rooms == RemoveFirst(old(rooms), r) && furnitures == old(furnitures)
    }

    /** DeleteRoomCommand.execute(): the backed-up furniture and then the room
        leave the canvas lists, one List.remove each. */
    twostate predicate RoomDeleted(r: Room, fs: seq<Furniture>)
      reads this`rooms, this`furnitures
    {
      rooms == RemoveFirst(old(rooms), r) && furnitures == RemoveEach(old(furnitures), fs)
    }

    /** DeleteRoomCommand.undo(): the room is appended again, its backed-up
        children are appended to it and linked back to it, and the backed-up
        furniture is appended to the canvas list. */
    twostate predicate RoomRestored(r: Room, ds: seq<Door>, ws: seq<PlanWindow>, fs: seq<Furniture>)
      reads this`rooms, this`furnitures, r, DoorObjects(ds), WindowObjects(ws), FurnitureObjects(fs)
    {
      && rooms == old(rooms) + [r] && furnitures == old(furnitures) + fs
      && r.doors == old(r.doors) + ds && r.windows == old(r.windows) + ws
      && r.furnitures == old(r.furnitures) + fs
      && r.Position() == old(r.Position()) && r.name == old(r.name)
      && (forall d :: d in ds ==> d.room == r && d.Position() == old(d.Position()))
      && (forall w :: w in ws ==> w.room == r && w.Position() == old(w.Position()))
      && (forall f :: f in fs ==> f.room == r && f.Position() == old(f.Position()) && f.angle == old(f.angle))
    }

    /** MoveRoomCommand: the room has been through setPosition; the lists are kept. */
    twostate predicate RoomMoved(r: Room, p: Point)
      reads this`rooms, this`furnitures, r, r.DoorSet(), r.WindowSet()
    {
      rooms == old(rooms) && furnitures == old(furnitures) && r.MovedTo(p, doorPlacer)
    }

    /** AddDoorCommand.execute(): Room.addDoor. */
    twostate predicate DoorAdded(r: Room, d: Door)
      reads this`rooms, this`furnitures, r, d
    {
      && rooms == old(rooms) && furnitures == old(furnitures)
      && r.doors == old(r.doors) + [d] && d.room == r && d.Position() == old(d.Position())
      && r.windows == old(r.windows) && r.furnitures == old(r.furnitures)
      && r.Position() == old(r.Position()) && r.name == old(r.name)
    }

    /** AddDoorCommand.undo(): the door leaves the room's list; its link to the room stays. */
    twostate predicate DoorRemoved(r: Room, d: Door)
      reads this`rooms, this`furnitures, r
    {
      && rooms == old(rooms) && furnitures == old(furnitures)
      && r.doors == RemoveFirst(old(r.doors), d)
      && r.windows == old(r.windows) && r.furnitures == old(r.furnitures)
      && r.Position() == old(r.Position()) && r.name == old(r.name)
    }

    /** AddWindowCommand.execute(): Room.addWindow. */
    twostate predicate WindowAdded(r: Room, w: PlanWindow)
      reads this`rooms, this`furnitures, r, w
    {
      && rooms == old(rooms) && furnitures == old(furnitures)
      && r.windows == old(r.windows) + [w] && w.room == r && w.Position() == old(w.Position())
      && r.doors == old(r.doors) && r.furnitures == old(r.furnitures)
      && r.Position() == old(r.Position()) && r.name == old(r.name)
    }

    /** AddWindowCommand.undo(): the window leaves the room's list. */
    twostate predicate WindowRemoved(r: Room, w: PlanWindow)
      reads this`rooms, this`furnitures, r
    {
      && rooms == old(rooms) && furnitures == old(furnitures)
      && r.windows == RemoveFirst(old(r.windows), w)
      && r.doors == old(r.doors) && r.furnitures == old(r.furnitures)
      && r.Position() == old(r.Position()) && r.name == old(r.name)
    }

    /** AddFurnitureCommand.execute(): Room.addFurniture, then the canvas list. */
    twostate predicate FurnitureAdded(r: Room, f: Furniture)
      reads this`rooms, this`furnitures, r, f
    {
      && rooms == old(rooms) && furnitures == old(furnitures) + [f]
      && r.furnitures == old(r.furnitures) + [f] && f.room == r
      && f.Position() == old(f.Position()) && f.angle == old(f.angle)
      && r.doors == old(r.doors) && r.windows == old(r.windows)
      && r.Position() == old(r.Position()) && r.name == old(r.name)
    }

    /** AddFurnitureCommand.undo(): the piece leaves the room's list and the canvas list. */
    twostate predicate FurnitureRemoved(r: Room, f: Furniture)
      reads this`rooms, this`furnitures, r
    {
      && rooms == old(rooms) && furnitures == RemoveFirst(old(furnitures), f)
      && r.furnitures == RemoveFirst(old(r.furnitures), f)
      && r.doors == old(r.doors) && r.windows == old(r.windows)
      && r.Position() == old(r.Position()) && r.name == old(r.name)
    }

    /** Furniture.setPosition through a command: the piece is at `p`, with its
        angle and its room kept. */
    twostate predicate FurnitureMoved(f: Furniture, p: Point)
      reads this`rooms, this`furnitures, f
    {
      && rooms == old(rooms) && furnitures == old(furnitures)
      && f.Position() == p && f.angle == old(f.angle) && f.room == old(f.room)
    }

    /** The effect of execute() of each command class on the plan. A rotation
        is applied before its command is recorded, so its execute() does nothing. */
    twostate predicate Executed(c: Command)
      reads this`rooms, this`furnitures, ExecuteTargets(c)
    {
      match c
      case AddRoomCommand(r) => RoomAppended(r)
      case AddRelativeRoomCommand(r) => RoomAppended(r)
      case DeleteRoomCommand(r, _, _, fs) => RoomDeleted(r, fs)
      case MoveRoomCommand(r, _, newPosition) => RoomMoved(r, newPosition)
      case AddDoorCommand(r, d) => DoorAdded(r, d)
      case AddWindowCommand(r, w) => WindowAdded(r, w)
      case AddFurnitureCommand(r, f) => FurnitureAdded(r, f)
      case MoveFurnitureCommand(f, _, newPosition) => FurnitureMoved(f, newPosition)
      case RotateFurnitureCommand(_, _, _) => rooms == old(rooms) && furnitures == old(furnitures)
    }

    /** The effect of undo() of each command class on the plan. Undoing a
        rotation puts the piece back at its old position but keeps its angle. */
    twostate predicate Undone(c: Command)
      reads this`rooms, this`furnitures, UndoTargets(c)
    {
      match c
      case AddRoomCommand(r) => RoomRemoved(r)
      case AddRelativeRoomCommand(r) => RoomRemoved(r)
      case DeleteRoomCommand(r, ds, ws, fs) => RoomRestored(r, ds, ws, fs)
      case MoveRoomCommand(r, oldPosition, _) => RoomMoved(r, oldPosition)
      case AddDoorCommand(r, d) => DoorRemoved(r, d)
      case AddWindowCommand(r, w) => WindowRemoved(r, w)
      case AddFurnitureCommand(r, f) => FurnitureRemoved(r, f)
      case MoveFurnitureCommand(f, oldPosition, _) => FurnitureMoved(f, oldPosition)
      case RotateFurnitureCommand(f, oldPosition, _) => FurnitureMoved(f, oldPosition)
    }

    /** AddRoomCommand.execute() and AddRelativeRoomCommand.execute(): List.add. */
    method AppendRoom(r: Room)
      modifies this`rooms
      ensures RoomAppended(r)
    {
      rooms := rooms + [r];
    }

    /** AddRoomCommand.undo() and AddRelativeRoomCommand.undo(): List.remove. */
    method RemoveRoom(r: Room)
      modifies this`rooms
      ensures RoomRemoved(r)
    {
      rooms := RemoveFirst(rooms, r);
    }

    /** MoveRoomCommand.execute() and undo(): Room.setPosition. */
    method MoveRoomTo(r: Room, p: Point)
      modifies r`x, r`y, r.DoorSet(), r.WindowSet()
      ensures RoomMoved(r, p)
    {
      r.SetPosition(p, doorPlacer);
    }

    /** AddDoorCommand.execute(): Room.addDoor. */
    method ExecuteAddDoor(r: Room, d: Door)
      modifies r`doors, d`room
      ensures DoorAdded(r, d)
    {
      r.AddDoor(d);
    }

    /** AddDoorCommand.undo(): List.remove on the room's doors. */
    method UndoAddDoor(r: Room, d: Door)
      modifies r`doors
      ensures DoorRemoved(r, d)
    {
      r.doors := RemoveFirst(r.doors, d);
    }

    /** AddWindowCommand.execute(): Room.addWindow. */
    method ExecuteAddWindow(r: Room, w: PlanWindow)
      modifies r`windows, w`room
      ensures WindowAdded(r, w)
    {
      r.AddWindow(w);
    }

    /** AddWindowCommand.undo(): List.remove on the room's windows. */
    method UndoAddWindow(r: Room, w: PlanWindow)
      modifies r`windows
      ensures WindowRemoved(r, w)
    {
      r.windows := RemoveFirst(r.windows, w);
    }

    /** AddFurnitureCommand.execute(): Room.addFurniture, then the canvas list. */
    method ExecuteAddFurniture(r: Room, f: Furniture)
      modifies this`furnitures, r`furnitures, f`room
      ensures FurnitureAdded(r, f)
    {
      r.AddFurniture(f);
      furnitures := furnitures + [f];
    }

    /** AddFurnitureCommand.undo(): List.remove on the room's and the canvas's lists. */
    method UndoAddFurniture(r: Room, f: Furniture)
      modifies this`furnitures, r`furnitures
      ensures FurnitureRemoved(r, f)
    {
      r.furnitures := RemoveFirst(r.furnitures, f);
      furnitures := RemoveFirst(furnitures, f);
    }

    /** MoveFurnitureCommand.execute() and undo(), RotateFurnitureCommand.undo():
        Furniture.setPosition. */
    method MoveFurnitureTo(f: Furniture, p: Point)
      modifies f`x, f`y
      ensures FurnitureMoved(f, p)
    {
      f.SetPosition(p);
    }

    /** DeleteRoomCommand.execute(): one List.remove from the canvas list per
        backed-up piece of furniture, then the room itself. */
    method ExecuteDeleteRoom(r: Room, fs: seq<Furniture>)
      modifies this`rooms, this`furnitures
      ensures RoomDeleted(r, fs)
    {
      var i := 0;
      while i < |fs|
        invariant 0 <= i <= |fs|
        invariant furnitures == RemoveEach(old(furnitures), fs[..i])
        invariant rooms == old(rooms)
      {
        assert fs[..i + 1][..i] == fs[..i];
        furnitures := RemoveFirst(furnitures, fs[i]);
        i := i + 1;
      }
      assert fs[..|fs|] == fs;
      rooms := RemoveFirst(rooms, r);
    }

    /** DeleteRoomCommand.undo(): the room is appended to the canvas list again,
        then every backed-up door, window and piece of furniture to the room,
        and the furniture to the canvas list too. */
    method UndoDeleteRoom(r: Room, ds: seq<Door>, ws: seq<PlanWindow>, fs: seq<Furniture>)
      modifies this`rooms, this`furnitures, r`doors, r`windows, r`furnitures
      modifies (set d | d in ds)`room, (set w | w in ws)`room, (set f | f in fs)`room
      ensures RoomRestored(r, ds, ws, fs)
    {
      rooms := rooms + [r];
      RestoreDoors(r, ds);
      RestoreWindows(r, ws);
      RestoreFurnitures(r, fs);
    }

    /** The undo's first loop: each backed-up door goes through room.addDoor. */
    method RestoreDoors(r: Room, ds: seq<Door>)
      modifies r`doors, (set d | d in ds)`room
      ensures r.doors == old(r.doors) + ds && forall d :: d in ds ==> d.room == r
    {
      var i := 0;
      while i < |ds|
        invariant 0 <= i <= |ds|
        invariant r.doors == old(r.doors) + ds[..i]
        invariant forall d :: d in ds[..i] ==> d.room == r
      {
        r.AddDoor(ds[i]);
        assert ds[..i + 1] == ds[..i] + [ds[i]];
        i := i + 1;
      }
      assert ds[..|ds|] == ds;
    }

    /** The undo's second loop: each backed-up window goes through room.addWindow. */
    method RestoreWindows(r: Room, ws: seq<PlanWindow>)
      modifies r`windows, (set w | w in ws)`room
      ensures r.windows == old(r.windows) + ws && forall w :: w in ws ==> w.room == r
    {
      var j := 0;
      while j < |ws|
        invariant 0 <= j <= |ws|
        invariant r.windows == old(r.windows) + ws[..j]
        invariant forall w :: w in ws[..j] ==> w.room == r
      {
        r.AddWindow(ws[j]);
        assert ws[..j + 1] == ws[..j] + [ws[j]];
        j := j + 1;
      }
      assert ws[..|ws|] == ws;
    }

    /** The undo's third loop: each backed-up piece goes through room.addFurniture
        and back onto the canvas list. */
    method RestoreFurnitures(r: Room, fs: seq<Furniture>)
      modifies this`furnitures, r`furnitures, (set f | f in fs)`room
      ensures r.furnitures == old(r.furnitures) + fs && furnitures == old(furnitures) + fs
      ensures forall f :: f in fs ==> f.room == r
    {
      var k := 0;
      while k < |fs|
        invariant 0 <= k <= |fs|
        invariant r.furnitures == old(r.furnitures) + fs[..k] && furnitures == old(furnitures) + fs[..k]
        invariant forall f :: f in fs[..k] ==> f.room == r
      {
        r.AddFurniture(fs[k]);
        furnitures := furnitures + [fs[k]];
        assert fs[..k + 1] == fs[..k] + [fs[k]];
        k := k + 1;
      }
      assert fs[..|fs|] == fs;
    }

    /** performUndo: pop the most recent command, undo it and push it on the
        redo stack; with nothing to undo nothing happens. The plan is not
        re-validated. */
    method PerformUndo()
      modifies this`undoStack, this`redoStack, this`rooms, this`furnitures
      modifies if undoStack == [] then {} else UndoTargets(undoStack[|undoStack| - 1])
      ensures Stacks() == Undo(old(Stacks()))
      ensures old(undoStack) == [] ==> rooms == old(rooms) && furnitures == old(furnitures)
      // Written as an equation so that the effect is checked as one fact
      // rather than command class by command class.
      ensures old(undoStack) != [] ==> Undone(old(undoStack[|undoStack| - 1])) == true
    {
      if undoStack != [] {
        var c := undoStack[|undoStack| - 1];
        UndoCommand(c);
        undoStack, redoStack := undoStack[..|undoStack| - 1], redoStack + [c];
      }
    }

    /** cmd.undo(), dispatched on the command's class. */
    method UndoCommand(c: Command)
      modifies this`rooms, this`furnitures, UndoTargets(c)
      ensures Undone(c)
    {
      match c
      case AddRoomCommand(r) =>
        RemoveRoom(r);
      case AddRelativeRoomCommand(r) =>
        RemoveRoom(r);
      case DeleteRoomCommand(r, ds, ws, fs) =>
        UndoDeleteRoom(r, ds, ws, fs);
      case MoveRoomCommand(r, oldPosition, _) =>
        MoveRoomTo(r, oldPosition);
      case AddDoorCommand(r, d) =>
        UndoAddDoor(r, d);
      case AddWindowCommand(r, w) =>
        UndoAddWindow(r, w);
      case AddFurnitureCommand(r, f) =>
        UndoAddFurniture(r, f);
      case MoveFurnitureCommand(f, oldPosition, _) =>
        MoveFurnitureTo(f, oldPosition);
      case RotateFurnitureCommand(f, oldPosition, _) =>
        MoveFurnitureTo(f, oldPosition);
    }

    /** performRedo: pop the most recently undone command, execute it again
        and push it back on the undo stack. */
    method PerformRedo()
      modifies this`undoStack, this`redoStack, this`rooms, this`furnitures
      modifies if redoStack == [] then {} else ExecuteTargets(redoStack[|redoStack| - 1])
      ensures Stacks() == Redo(old(Stacks()))
      ensures old(redoStack) == [] ==> rooms == old(rooms) && furnitures == old(furnitures)
      // An equation for the same reason as in PerformUndo.
      ensures old(redoStack) != [] ==> Executed(old(redoStack[|redoStack| - 1])) == true
    {
      if redoStack != [] {
        var c := redoStack[|redoStack| - 1];
        ExecuteCommand(c);
        redoStack, undoStack := redoStack[..|redoStack| - 1], undoStack + [c];
      }
    }

    /** cmd.execute(), dispatched on the command's class. */
    method ExecuteCommand(c: Command)
      modifies this`rooms, this`furnitures, ExecuteTargets(c)
      ensures Executed(c)
    {
      match c
      case AddRoomCommand(r) =>
        AppendRoom(r);
      case AddRelativeRoomCommand(r) =>
        AppendRoom(r);
      case DeleteRoomCommand(r, _, _, fs) =>
        ExecuteDeleteRoom(r, fs);
      case MoveRoomCommand(r, _, newPosition) =>
        MoveRoomTo(r, newPosition);
      case AddDoorCommand(r, d) =>
        ExecuteAddDoor(r, d);
      case AddWindowCommand(r, w) =>
        ExecuteAddWindow(r, w);
      case AddFurnitureCommand(r, f) =>
        ExecuteAddFurniture(r, f);
      case MoveFurnitureCommand(f, _, newPosition) =>
        MoveFurnitureTo(f, newPosition);
      case RotateFurnitureCommand(_, _, _) =>
    }

    // ---------------------------------------------------------------- undo, then redo

    /** The objects a command names: its room, and its door, window or piece. */
    ghost function Subjects(c: Command): set<object>
    {
      match c
      case AddDoorCommand(r, d) => {r, d}
      case AddWindowCommand(r, w) => {r, w}
      case AddFurnitureCommand(r, f) => {r, f}
      case MoveFurnitureCommand(f, _, _) => {f}
      case RotateFurnitureCommand(f, _, _) => {f}
      case _ => {c.room}
    }

    /** What a command can change of the plan: the canvas lists, the state of
        the room it names and the position and angle of the item it names. */
    function View(c: Command): PlanState
      reads this, Subjects(c)
    {
      var room := match c
        case MoveFurnitureCommand(_, _, _) => None
        case RotateFurnitureCommand(_, _, _) => None
        case _ => Some(StateOf(c.room));
      var item := match c
        case AddDoorCommand(_, d) => Some(ItemState(d.Position(), None))
        case AddWindowCommand(_, w) => Some(ItemState(w.Position(), None))
        case AddFurnitureCommand(_, f) => Some(ItemState(f.Position(), Some(f.angle)))
        case MoveFurnitureCommand(f, _, _) => Some(ItemState(f.Position(), Some(f.angle)))
        case RotateFurnitureCommand(f, _, _) => Some(ItemState(f.Position(), Some(f.angle)))
        case _ => None;
      PlanState(rooms, furnitures, room, item)
    }

    /** The state a command is recorded in: what it adds is not listed yet,
        and what it moves is still at the recorded old position. A deletion is
        not reversible: its undo appends the children a second time. */
    predicate Reversible(c: Command)
      reads this, Subjects(c)
    {
      match c
      case AddRoomCommand(r) => r !in rooms
      case AddRelativeRoomCommand(r) => r !in rooms
      case DeleteRoomCommand(_, _, _, _) => false
      case MoveRoomCommand(r, oldPosition, _) => r.Position() == oldPosition
      case AddDoorCommand(r, d) => d !in r.doors
      case AddWindowCommand(r, w) => w !in r.windows
      case AddFurnitureCommand(r, f) => f !in r.furnitures && f !in furnitures
      case MoveFurnitureCommand(f, oldPosition, _) => f.Position() == oldPosition
      case RotateFurnitureCommand(f, oldPosition, _) => f.Position() == oldPosition
    }

    /** execute(), undo(), execute() again, as performUndo and performRedo
        apply them: undo brings back the plan as it was before the command,
        and redo brings back the plan as the command first left it. */
    method ExecuteUndoRedo(c: Command) returns (afterExecute: PlanState, afterUndo: PlanState)
      requires Reversible(c)
      modifies this`rooms, this`furnitures, ExecuteTargets(c), UndoTargets(c)
      ensures afterUndo == old(View(c))
      ensures View(c) == afterExecute
    {
      match c
      case AddRoomCommand(_) => afterExecute, afterUndo := RoomRoundTrip(c);
      case AddRelativeRoomCommand(_) => afterExecute, afterUndo := RoomRoundTrip(c);
      case MoveRoomCommand(_, _, _) => afterExecute, afterUndo := MoveRoundTrip(c);
      case AddDoorCommand(_, _) => afterExecute, afterUndo := DoorRoundTrip(c);
      case AddWindowCommand(_, _) => afterExecute, afterUndo := WindowRoundTrip(c);
      case AddFurnitureCommand(_, _) => afterExecute, afterUndo := FurnitureRoundTrip(c);
      case MoveFurnitureCommand(_, _, _) => afterExecute, afterUndo := PieceRoundTrip(c);
      case RotateFurnitureCommand(_, _, _) => afterExecute, afterUndo := PieceRoundTrip(c);
    }

    /** ExecuteUndoRedo for an added room. */
    method RoomRoundTrip(c: Command) returns (afterExecute: PlanState, afterUndo: PlanState)
      requires c.AddRoomCommand? || c.AddRelativeRoomCommand?
      requires Reversible(c)
      modifies this`rooms, this`furnitures, ExecuteTargets(c), UndoTargets(c)
      ensures afterUndo == old(View(c))
      ensures View(c) == afterExecute
    {
      ghost var rooms0 := rooms;
      ExecuteCommand(c);
      afterExecute := View(c);
      UndoCommand(c);
      RemoveFirstUndoesAppend(rooms0, c.room);
      afterUndo := View(c);
      ExecuteCommand(c);
    }

    /** ExecuteUndoRedo for a moved room. */
    method MoveRoundTrip(c: Command) returns (afterExecute: PlanState, afterUndo: PlanState)
      requires c.MoveRoomCommand?
      requires Reversible(c)
      modifies this`rooms, this`furnitures, ExecuteTargets(c), UndoTargets(c)
      ensures afterUndo == old(View(c))
      ensures View(c) == afterExecute
    {
      ExecuteCommand(c);
      afterExecute := View(c);
      UndoCommand(c);
      afterUndo := View(c);
      ExecuteCommand(c);
    }

    /** ExecuteUndoRedo for an added door. */
    method DoorRoundTrip(c: Command) returns (afterExecute: PlanState, afterUndo: PlanState)
      requires c.AddDoorCommand?
      requires Reversible(c)
      modifies this`rooms, this`furnitures, ExecuteTargets(c), UndoTargets(c)
      ensures afterUndo == old(View(c))
      ensures View(c) == afterExecute
    {
      ghost var doors0 := c.room.doors;
      ExecuteCommand(c);
      afterExecute := View(c);
      UndoCommand(c);
      RemoveFirstUndoesAppend(doors0, c.door);
      afterUndo := View(c);
      ExecuteCommand(c);
    }

    /** ExecuteUndoRedo for an added window. */
    method WindowRoundTrip(c: Command) returns (afterExecute: PlanState, afterUndo: PlanState)
      requires c.AddWindowCommand?
      requires Reversible(c)
      modifies this`rooms, this`furnitures, ExecuteTargets(c), UndoTargets(c)
      ensures afterUndo == old(View(c))
      ensures View(c) == afterExecute
    {
      ghost var windows0 := c.room.windows;
      ExecuteCommand(c);
      afterExecute := View(c);
      UndoCommand(c);
      RemoveFirstUndoesAppend(windows0, c.window);
      afterUndo := View(c);
      ExecuteCommand(c);
    }

    /** ExecuteUndoRedo for an added piece of furniture. */
    method FurnitureRoundTrip(c: Command) returns (afterExecute: PlanState, afterUndo: PlanState)
      requires c.AddFurnitureCommand?
      requires Reversible(c)
      modifies this`rooms, this`furnitures, ExecuteTargets(c), UndoTargets(c)
      ensures afterUndo == old(View(c))
      ensures View(c) == afterExecute
    {
      ghost var pieces0, furnitures0 := c.room.furnitures, furnitures;
      ExecuteCommand(c);
      afterExecute := View(c);
      UndoCommand(c);
      RemoveFirstUndoesAppend(pieces0, c.furniture);
      RemoveFirstUndoesAppend(furnitures0, c.furniture);
      afterUndo := View(c);
      ExecuteCommand(c);
    }

    /** ExecuteUndoRedo for a moved or rotated piece of furniture. */
    method PieceRoundTrip(c: Command) returns (afterExecute: PlanState, afterUndo: PlanState)
      requires c.MoveFurnitureCommand? || c.RotateFurnitureCommand?
      requires Reversible(c)
      modifies this`rooms, this`furnitures, ExecuteTargets(c), UndoTargets(c)
      ensures afterUndo == old(View(c))
      ensures View(c) == afterExecute
    {
      ExecuteCommand(c);
      afterExecute := View(c);
      UndoCommand(c);
      afterUndo := View(c);
      ExecuteCommand(c);
    }

    // ---------------------------------------------------------------- mouse handling

    /** The furniture scan of mousePressed: the first piece containing `p`. */
    method FurnitureHit(p: Point) returns (i: nat)
      ensures i == FurnitureAt(furnitures, p)
    {
      i := 0;
      while i < |furnitures|
        invariant 0 <= i <= |furnitures|
        invariant forall k :: 0 <= k < i ==> !Contains(furnitures[k].Bounds(), p)
      {
        if Contains(furnitures[i].Bounds(), p) {
          return;
        }
        i := i + 1;
      }
    }

    /** The room scan of mousePressed: the first room containing `p`. */
    method RoomHit(p: Point) returns (i: nat)
      ensures i == RoomAt(rooms, p)
    {
      i := 0;
      while i < |rooms|
        invariant 0 <= i <= |rooms|
        invariant forall k :: 0 <= k < i ==> !Contains(rooms[k].Bounds(), p)
      {
        if rooms[i].Contains(p) {
          return;
        }
        i := i + 1;
      }
    }

    /** A press on piece of furniture `f` at `p`: its room and itself are
        selected and it starts dragging, the room drag left as it was. */
    twostate predicate FurniturePressed(f: Furniture, p: Point)
      reads this
    {
      && selectedRoom == old(f.room) && selectedFurniture == f && draggingFurniture == f
      && furnitureDragOffset == Point(p.x - old(f.x), p.y - old(f.y)) && originalPosition == old(f.Position())
      && draggingRoom == old(draggingRoom) && dragOffset == old(dragOffset)
    }

    /** A press on room `r` at `p`: the room is selected and starts dragging,
        no furniture is selected, the furniture drag is left as it was. */
    twostate predicate RoomPressed(r: Room, p: Point)
      reads this
    {
      && selectedRoom == r && selectedFurniture == null && draggingRoom == r
      && dragOffset == Point(p.x - old(r.x), p.y - old(r.y)) && originalPosition == old(r.Position())
      && draggingFurniture == old(draggingFurniture) && furnitureDragOffset == old(furnitureDragOffset)
    }

    /** A press on empty space: the selection is cleared and nothing starts dragging. */
    twostate predicate NothingPressed()
      reads this
    {
      && selectedRoom == null && selectedFurniture == null
      && draggingRoom == old(draggingRoom) && draggingFurniture == old(draggingFurniture)
      && dragOffset == old(dragOffset) && furnitureDragOffset == old(furnitureDragOffset)
      && originalPosition == old(originalPosition)
    }

    /** The furniture branch of mousePressed. */
    method PressFurniture(f: Furniture, p: Point)
      modifies this`selectedRoom, this`selectedFurniture, this`draggingFurniture
      modifies this`furnitureDragOffset, this`originalPosition
      ensures FurniturePressed(f, p)
    {
      selectedRoom, selectedFurniture := f.room, f;
      furnitureDragOffset := Point(p.x - f.x, p.y - f.y);
      draggingFurniture := f;
      originalPosition := f.Position();
    }

    /** The room branch of mousePressed. */
    method PressRoom(r: Room, p: Point)
      modifies this`selectedRoom, this`selectedFurniture, this`draggingRoom
      modifies this`dragOffset, this`originalPosition
      ensures RoomPressed(r, p)
    {
      selectedRoom, selectedFurniture := r, null;
      draggingRoom := r;
      dragOffset := Point(p.x - r.x, p.y - r.y);
      originalPosition := r.Position();
    }

    /** mousePressed: at the snapped point, the first piece of furniture hit is
        selected and starts dragging; failing that the first room hit; a press
        on empty space clears the selection. */
    method MousePressed(click: Point)
      modifies this`selectedRoom, this`selectedFurniture, this`draggingRoom, this`draggingFurniture
      modifies this`dragOffset, this`furnitureDragOffset, this`originalPosition
      ensures var p := SnapToGrid(click);
              var fi := old(FurnitureAt(furnitures, p));
              fi < |furnitures| ==> FurniturePressed(furnitures[fi], p)
      ensures var p := SnapToGrid(click);
              var ri := old(RoomAt(rooms, p));
              old(FurnitureAt(furnitures, p)) == |furnitures| && ri < |rooms| ==> RoomPressed(rooms[ri], p)
      ensures var p := SnapToGrid(click);
              old(FurnitureAt(furnitures, p)) == |furnitures| && old(RoomAt(rooms, p)) == |rooms| ==>
                NothingPressed()
    {
      var p := SnapToGrid(click);
      var i := FurnitureHit(p);
      if i < |furnitures| {
        PressFurniture(furnitures[i], p);
      } else {
        var j := RoomHit(p);
        if j < |rooms| {
          PressRoom(rooms[j], p);
        } else {
          selectedRoom, selectedFurniture := null, null;
        }
      }
    }

    /** The setPosition-then-checkRoomOverlap step of both drag handlers:
        move `r` to `target` and test it against every other room. */
    method MoveAndCheck(r: Room, target: Point) returns (overlap: bool)
      modifies r`x, r`y, r.DoorSet(), r.WindowSet()
      ensures r.MovedTo(target, doorPlacer)
      ensures overlap == old(OverlapsOtherRoom(r, Rect(target.x, target.y, r.width, r.height)))
      ensures overlap == OverlapsOtherRoom(r, r.Bounds())
      ensures DisjointExcept(rooms, r) == old(DisjointExcept(rooms, r))
      ensures forall area :: ClearOf(rooms, r, area) == old(ClearOf(rooms, r, area))
    {
      PlaceRoom(r, target);
      overlap := CheckRoomOverlap(r);
    }

    /** Room.setPosition on a room of the plan: the other rooms stay where
        they are, so how the room sits among them depends only on `p`. */
    method PlaceRoom(r: Room, p: Point)
      modifies r`x, r`y, r.DoorSet(), r.WindowSet()
      ensures r.MovedTo(p, doorPlacer)
      ensures DisjointExcept(rooms, r) == old(DisjointExcept(rooms, r))
      ensures forall area :: ClearOf(rooms, r, area) == old(ClearOf(rooms, r, area))
    {
      r.SetPosition(p, doorPlacer);
      assert forall i :: 0 <= i < |rooms| && rooms[i] != r ==> rooms[i].Bounds() == old(rooms[i].Bounds());
    }

    /** mouseDragged: a dragged room follows the pointer, carrying its doors
        and windows, and is highlighted while it overlaps another room; failing
        that a dragged piece of furniture follows the pointer. */
    method MouseDragged(click: Point)
      modifies this`roomToHighlight
      modifies if draggingRoom != null then draggingRoom.Footprint() else {}
      modifies if draggingRoom == null && draggingFurniture != null then {draggingFurniture} else {}
      ensures var p := SnapToGrid(click);
              && (draggingRoom != null ==>
                    var r := draggingRoom;
                    && r.MovedTo(Point(p.x - dragOffset.x, p.y - dragOffset.y), doorPlacer)
                    && roomToHighlight == (if OverlapsOtherRoom(r, r.Bounds()) then r else null))
              && (draggingRoom == null && draggingFurniture != null ==>
                    var f := draggingFurniture;
                    && f.Position() == Point(p.x - furnitureDragOffset.x, p.y - furnitureDragOffset.y)
                    && f.angle == old(f.angle) && f.room == old(f.room)
                    && roomToHighlight == old(roomToHighlight))
              && (draggingRoom == null && draggingFurniture == null ==> roomToHighlight == old(roomToHighlight))
    {
      var p := SnapToGrid(click);
      if draggingRoom != null {
        var newPos := Point(p.x - dragOffset.x, p.y - dragOffset.y);
        var overlap := MoveAndCheck(draggingRoom, newPos);
        if overlap {
          roomToHighlight := draggingRoom;
        } else {
          roomToHighlight := null;
        }
      } else if draggingFurniture != null {
        var newPos := Point(p.x - furnitureDragOffset.x, p.y - furnitureDragOffset.y);
        draggingFurniture.SetPosition(newPos);
      }
    }

    /** Where releasing the dragged room `r` at `target` leaves it: if the
        target was clear of the other rooms the room has moved there;
        otherwise it is back where the drag started. Either way, a layout
        that was disjoint apart from `r`, with `r`'s starting place clear, is
        disjoint afterwards. */
    twostate predicate RoomSettled(r: Room, target: Point)
      reads this`originalPosition, this`rooms, Rooms(rooms), r, r.DoorSet(), r.WindowSet()
    {
      var clear := old(ClearOf(rooms, r, Rect(target.x, target.y, r.width, r.height)));
      && (clear ==> r.MovedTo(target, doorPlacer))
      && (!clear ==> r.Position() == originalPosition)
      && (old(DisjointExcept(rooms, r)) &&
          old(ClearOf(rooms, r, Rect(originalPosition.x, originalPosition.y, r.width, r.height))) ==>
            Disjoint(rooms))
    }

    /** What releasing the dragged room `r` at `target` leaves behind: the
        room settled as RoomSettled says, and the move recorded exactly when
        the target was clear. */
    twostate predicate RoomReleased(r: Room, target: Point)
      reads this`undoStack, this`redoStack, this`originalPosition, this`rooms, Rooms(rooms)
      reads r, r.DoorSet(), r.WindowSet()
    {
      var clear := old(ClearOf(rooms, r, Rect(target.x, target.y, r.width, r.height)));
      && RoomSettled(r, target)
      && History(undoStack, redoStack) ==
           if clear then Record(old(Stacks()), MoveRoomCommand(r, originalPosition, target)) else old(Stacks())
    }

    /** The room half of mouseReleased: try the dragged room at `target`,
        putting it back where the drag started on overlap, then record the
        move if it stayed and end the drag. */
    method ReleaseRoom(r: Room, target: Point)
      modifies r`x, r`y, r.DoorSet(), r.WindowSet(), this`undoStack, this`redoStack
      modifies this`roomToHighlight, this`draggingRoom
      // An equation, so that the settled room is carried past the recording
      // as one fact rather than part by part.
      ensures RoomReleased(r, target) == true
      ensures roomToHighlight == null && draggingRoom == null
    {
      var overlap := SettleRoom(r, target);
      RecordRelease(r, target, overlap);
    }

    /** setPosition, checkRoomOverlap and, on overlap, setPosition back to
        where the drag started. */
    method SettleRoom(r: Room, target: Point) returns (overlap: bool)
      modifies r`x, r`y, r.DoorSet(), r.WindowSet()
      ensures overlap == old(OverlapsOtherRoom(r, Rect(target.x, target.y, r.width, r.height)))
      ensures RoomSettled(r, target)
    {
      overlap := MoveAndCheck(r, target);
      if overlap {
        PlaceRoom(r, originalPosition);
      }
      DisjointSplit(rooms, r);
    }

    /** The end of the room half of mouseReleased: a move that stayed is
        pushed on the undo stack and clears the redo stack; the drag ends. */
    method RecordRelease(r: Room, target: Point, overlap: bool)
      modifies this`undoStack, this`redoStack, this`roomToHighlight, this`draggingRoom
      ensures Stacks() == if overlap then old(Stacks())
                          else Record(old(Stacks()), MoveRoomCommand(r, originalPosition, target))
      ensures roomToHighlight == null && draggingRoom == null
    {
      if !overlap {
        PushUndo(MoveRoomCommand(r, originalPosition, target));
        redoStack := [];
      }
      roomToHighlight, draggingRoom := null, null;
    }

    /** mouseReleased: a dragged room is released through ReleaseRoom; a
        dragged piece of furniture has its move recorded, unchecked (it already
        follows the pointer). Either way the drag ends. */
    method MouseReleased(click: Point)
      modifies this`roomToHighlight, this`draggingRoom, this`draggingFurniture, this`undoStack, this`redoStack
      modifies (if draggingRoom == null then {} else {draggingRoom})`x
      modifies (if draggingRoom == null then {} else {draggingRoom})`y
      modifies if draggingRoom != null then draggingRoom.DoorSet() else {}
      modifies if draggingRoom != null then draggingRoom.WindowSet() else {}
      ensures old(draggingRoom) != null ==>
                var p := SnapToGrid(click);
                && RoomReleased(old(draggingRoom), Point(p.x - dragOffset.x, p.y - dragOffset.y))
                && roomToHighlight == null && draggingRoom == null && draggingFurniture == old(draggingFurniture)
      ensures old(draggingRoom) == null ==>
                var p := SnapToGrid(click);
                var target := Point(p.x - furnitureDragOffset.x, p.y - furnitureDragOffset.y);
                && draggingRoom == null && draggingFurniture == null && roomToHighlight == old(roomToHighlight)
                && Stacks() == if old(draggingFurniture) == null then old(Stacks())
                               else Record(old(Stacks()), MoveFurnitureCommand(old(draggingFurniture), originalPosition, target))
    {
      if draggingRoom != null {
        var p := SnapToGrid(click);
        var newPos := Point(p.x - dragOffset.x, p.y - dragOffset.y);
        ReleaseRoom(draggingRoom, newPos);
      } else if draggingFurniture != null {
        var p := SnapToGrid(click);
        var newPos := Point(p.x - furnitureDragOffset.x, p.y - furnitureDragOffset.y);
        PushUndo(MoveFurnitureCommand(draggingFurniture, originalPosition, newPos));
        redoStack := [];
        draggingFurniture := null;
      }
    }
  }
}
