/**
 * ControlPanel: the selected room, the guards its buttons apply before they
 * call the canvas, the rebuilding of back-references after a plan is loaded,
 * and the Delete Room sequence.
 */
module Controls {
  import opened Geometry
  import opened Placement
  import opened Model
  import opened Commands
  import opened Canvas

  // ---------------------------------------------------------------- holders in a list of lists

  /** The index of the first list holding `x`, or |lists| when none does. */
  function FirstHolder<T(==)>(lists: seq<seq<T>>, x: T): (i: nat)
    ensures i <= |lists|
    ensures i < |lists| ==> x in lists[i]
    ensures forall j :: 0 <= j < i ==> x !in lists[j]
  {
    if lists == [] then 0
    else if x in lists[0] then 0
    else FirstHolder(lists[1..], x) + 1
  }

  /** The index of the last list holding `x`, or -1 when none does. */
  function LastHolder<T(==)>(lists: seq<seq<T>>, x: T): (i: int)
    ensures -1 <= i < |lists|
    ensures 0 <= i ==> x in lists[i]
    ensures forall j :: i < j < |lists| ==> x !in lists[j]
  {
    if lists == [] then -1
    else if x in lists[|lists| - 1] then |lists| - 1
    else LastHolder(lists[..|lists| - 1], x)
  }

  /** The room standing at the last holder of `x`, or null when no list holds it. */
  function LastHolderRoom<T(==)>(rs: seq<Room>, lists: seq<seq<T>>, x: T): Room?
    requires |lists| <= |rs|
  {
    var i := LastHolder(lists, x);
    if 0 <= i then rs[i] else null
  }

  /** One more list of the prefix: it becomes the last holder if it holds `x`. */
  lemma LastHolderStep<T>(lists: seq<seq<T>>, j: nat, x: T)
    requires j < |lists|
    ensures LastHolder(lists[..j + 1], x) == if x in lists[j] then j else LastHolder(lists[..j], x)
  {
    assert lists[..j + 1][..j] == lists[..j];
  }

  /** When exactly one list holds `x`, it is both the first and the last holder. */
  lemma SoleHolder<T>(lists: seq<seq<T>>, x: T, k: nat)
    requires k < |lists| && x in lists[k]
    requires forall j :: 0 <= j < |lists| && j != k ==> x !in lists[j]
    ensures FirstHolder(lists, x) == k && LastHolder(lists, x) == k
  {
  }

  // ---------------------------------------------------------------- the rooms' child lists

  function FurnitureLists(rs: seq<Room>): (lists: seq<seq<Furniture>>)
    reads set r | r in rs
    ensures |lists| == |rs| && forall i :: 0 <= i < |rs| ==> lists[i] == rs[i].furnitures
  {
    if rs == [] then [] else [rs[0].furnitures] + FurnitureLists(rs[1..])
  }

  function DoorLists(rs: seq<Room>): (lists: seq<seq<Door>>)
    reads set r | r in rs
    ensures |lists| == |rs| && forall i :: 0 <= i < |rs| ==> lists[i] == rs[i].doors
  {
    if rs == [] then [] else [rs[0].doors] + DoorLists(rs[1..])
  }

  function WindowLists(rs: seq<Room>): (lists: seq<seq<PlanWindow>>)
    reads set r | r in rs
    ensures |lists| == |rs| && forall i :: 0 <= i < |rs| ==> lists[i] == rs[i].windows
  {
    if rs == [] then [] else [rs[0].windows] + WindowLists(rs[1..])
  }

  ghost function DoorsOf(rs: seq<Room>): set<Door>
    reads set r | r in rs
  {
    set r, d | r in rs && d in r.doors :: d
  }

  ghost function WindowsOf(rs: seq<Room>): set<PlanWindow>
    reads set r | r in rs
  {
    set r, w | r in rs && w in r.windows :: w
  }

  /** findRoomForFurniture's answer: the first room, in list order, whose
      furniture list holds `f`, or null when none does. */
  function RoomHolding(rs: seq<Room>, f: Furniture): (r: Room?)
    reads set r | r in rs
    ensures r == null <==> forall j :: 0 <= j < |rs| ==> f !in rs[j].furnitures
    ensures r != null ==> r == rs[FirstHolder(FurnitureLists(rs), f)] && f in r.furnitures
  {
    var i := FirstHolder(FurnitureLists(rs), f);
    if i < |rs| then rs[i] else null
  }

  /** The room the load action leaves on door `d`: the last room, in list
      order, whose door list holds it, since each later room overwrites the
      link; null when none holds it. */
  function DoorHolder(rs: seq<Room>, d: Door): (r: Room?)
    reads set r | r in rs
    ensures r == null <==> forall j :: 0 <= j < |rs| ==> d !in rs[j].doors
    ensures r != null ==> r == rs[LastHolder(DoorLists(rs), d)] && d in r.doors
  {
    LastHolderRoom(rs, DoorLists(rs), d)
  }

  /** The same for window `w`. */
  function WindowHolder(rs: seq<Room>, w: PlanWindow): (r: Room?)
    reads set r | r in rs
    ensures r == null <==> forall j :: 0 <= j < |rs| ==> w !in rs[j].windows
    ensures r != null ==> r == rs[LastHolder(WindowLists(rs), w)] && w in r.windows
  {
    LastHolderRoom(rs, WindowLists(rs), w)
  }

  /** After a load: each piece of furniture of `fs` points to the room
      findRoomForFurniture finds for it in `rs`. */
  predicate FurnitureLinked(rs: seq<Room>, fs: seq<Furniture>)
    reads (set r | r in rs), (set f | f in fs)
  {
    forall f :: f in fs ==> f.room == RoomHolding(rs, f)
  }

  /** After a load: each door and each window listed by a room of `rs`
      points to the last room of `rs` listing it. */
  predicate ChildrenLinked(rs: seq<Room>)
    reads (set r | r in rs), DoorsOf(rs), WindowsOf(rs)
  {
    && (forall i, d :: 0 <= i < |rs| && d in rs[i].doors ==> d.room == DoorHolder(rs, d))
    && (forall i, w :: 0 <= i < |rs| && w in rs[i].windows ==> w.room == WindowHolder(rs, w))
  }

  /** ChildrenLinked, read off the rooms' lists taken as values. */
  lemma ChildrenLinkedByLists(rs: seq<Room>, doorLists: seq<seq<Door>>, windowLists: seq<seq<PlanWindow>>)
    requires doorLists == DoorLists(rs) && windowLists == WindowLists(rs)
    requires forall i, d :: 0 <= i < |rs| && d in doorLists[i] ==> d.room == LastHolderRoom(rs, doorLists, d)
    requires forall i, w :: 0 <= i < |rs| && w in windowLists[i] ==> w.room == LastHolderRoom(rs, windowLists, w)
    ensures ChildrenLinked(rs)
  {
  }

  /** A door held by exactly one room is linked back to that room. */
  lemma DoorHolderOfSoleRoom(rs: seq<Room>, d: Door, k: nat)
    requires k < |rs| && d in rs[k].doors
    requires forall j :: 0 <= j < |rs| && j != k ==> d !in rs[j].doors
    ensures DoorHolder(rs, d) == rs[k]
  {
    SoleHolder(DoorLists(rs), d, k);
  }

  /** A window held by exactly one room is linked back to that room. */
  lemma WindowHolderOfSoleRoom(rs: seq<Room>, w: PlanWindow, k: nat)
    requires k < |rs| && w in rs[k].windows
    requires forall j :: 0 <= j < |rs| && j != k ==> w !in rs[j].windows
    ensures WindowHolder(rs, w) == rs[k]
  {
    SoleHolder(WindowLists(rs), w, k);
  }

  // ---------------------------------------------------------------- names

  /** String.trim().isEmpty(): every character is at most a space. */
  predicate Blank(s: string)
  {
    forall i :: 0 <= i < |s| ==> s[i] <= ' '
  }

  /** The room name the naming dialog yields: a blank answer counts as no name. */
  function NameEntered(answer: Option<string>): (name: Option<string>)
    ensures name.Some? ==> name == answer && !Blank(name.value)
    ensures answer.Some? && !Blank(answer.value) ==> name == answer
  {
    if answer.Some? && Blank(answer.value) then None else answer
  }

  // ---------------------------------------------------------------- the panel

  class ControlPanel {
    const canvas: CanvasPanel
    var selectedRoom: Room?
    /** Whether the Delete Room button is enabled. */
    var deleteEnabled: bool

    constructor (canvas: CanvasPanel)
      ensures this.canvas == canvas && selectedRoom == null && !deleteEnabled
    {
      this.canvas := canvas;
      selectedRoom := null;
      deleteEnabled := false;
    }

    /** onRoomSelected: the selection follows the canvas, and Delete Room is
        enabled exactly when a room is selected. */
    method OnRoomSelected(room: Room?)
      modifies this`selectedRoom, this`deleteEnabled
      ensures selectedRoom == room
      ensures deleteEnabled <==> selectedRoom != null
    {
      selectedRoom := room;
      deleteEnabled := room != null;
    }

    // -------------------------------------------------------------- guarded actions

    /** The Add Room action with its dialogs answered: a non-positive width or
        height is refused before the canvas is asked, and a blank name is
        dropped. */
    method AddRoomAction(roomType: string, width: int, height: int, nameAnswer: Option<string>, canvasWidth: int)
      returns (outcome: Outcome)
      modifies canvas`rooms, canvas`undoStack, canvas`redoStack, canvas`nextRoomX, canvas`nextRoomY
      ensures width <= 0 || height <= 0 ==>
                outcome == Rejected(InvalidInput) && canvas.rooms == old(canvas.rooms) &&
                canvas.Stacks() == old(canvas.Stacks()) &&
                canvas.nextRoomX == old(canvas.nextRoomX) && canvas.nextRoomY == old(canvas.nextRoomY)
      ensures width > 0 && height > 0 ==>
                (outcome.Accepted? <==>
                   ClearOf(old(canvas.rooms), null, Rect(old(canvas.nextRoomX), old(canvas.nextRoomY), width, height)))
      ensures outcome.Rejected? ==> canvas.rooms == old(canvas.rooms) && canvas.Stacks() == old(canvas.Stacks())
      ensures outcome.Accepted? ==>
                width > 0 && height > 0 &&
                |canvas.rooms| == |old(canvas.rooms)| + 1 &&
                canvas.rooms[|old(canvas.rooms)|].name == NameEntered(nameAnswer)
      ensures old(canvas.NoOverlap()) ==> canvas.NoOverlap()
    {
      if width <= 0 || height <= 0 {
        return Rejected(InvalidInput);
      }
      outcome := canvas.AddRoom(roomType, width, height, NameEntered(nameAnswer), canvasWidth);
    }

    /** The Add Relative Room action: nothing without a selected room, then
        the same dimension guard and name handling as Add Room. */
    method AddRelativeRoomAction(direction: string, alignment: string, roomType: string, width: int, height: int,
                                 nameAnswer: Option<string>)
      returns (outcome: Outcome)
      modifies canvas`rooms, canvas`undoStack, canvas`redoStack
      ensures selectedRoom == null ==> outcome == Rejected(NoSelection)
      ensures selectedRoom != null && (width <= 0 || height <= 0) ==> outcome == Rejected(InvalidInput)
      ensures selectedRoom != null && width > 0 && height > 0 ==>
                var p := RelativePosition(selectedRoom.Bounds(), direction, alignment, width, height);
                (outcome.Accepted? <==>
                   p.Some? && ClearOf(old(canvas.rooms), null, Rect(p.value.x, p.value.y, width, height)))
      ensures outcome.Rejected? ==> canvas.rooms == old(canvas.rooms) && canvas.Stacks() == old(canvas.Stacks())
      ensures outcome.Accepted? ==>
                selectedRoom != null && width > 0 && height > 0 &&
                |canvas.rooms| == |old(canvas.rooms)| + 1 &&
                canvas.rooms[|old(canvas.rooms)|].name == NameEntered(nameAnswer)
      ensures old(canvas.NoOverlap()) ==> canvas.NoOverlap()
    {
      if selectedRoom == null {
        return Rejected(NoSelection);
      }
      if width <= 0 || height <= 0 {
        return Rejected(InvalidInput);
      }
      outcome := canvas.AddRelativeRoom(selectedRoom, roomType, direction, alignment, width, height,
                                        NameEntered(nameAnswer));
    }

    /** The Add Door action: nothing without a selected room; otherwise the
        canvas decides by DoorDecision, and an accepted door is the room's new
        last door, with the accepted rectangle, linked to it and recorded. */
    method AddDoorAction(direction: string, length: int, canvasWidth: int, canvasHeight: int)
      returns (outcome: Outcome)
      modifies canvas`undoStack, canvas`redoStack, (if selectedRoom == null then {} else {selectedRoom})`doors
      ensures selectedRoom == null ==> outcome == Rejected(NoSelection) && canvas.Stacks() == old(canvas.Stacks())
      ensures selectedRoom != null ==>
                var r := selectedRoom;
                var d := DoorDecision(r.Bounds(), r.roomType, direction, length, canvasWidth, canvasHeight,
                                      old(canvas.WallShared(r, direction)), old(ItemRects(r)));
                && (d.Reject? ==> outcome == Rejected(d.error) && r.doors == old(r.doors) &&
                                  canvas.Stacks() == old(canvas.Stacks()))
                && (d.Accept? ==>
                      && outcome == Accepted
                      && |r.doors| == |old(r.doors)| + 1 && r.doors[..|old(r.doors)|] == old(r.doors)
                      && var door := r.doors[|old(r.doors)|];
                         && fresh(door) && door.Bounds() == d.rect && door.direction == direction && door.room == r
                         && canvas.Stacks() == Record(old(canvas.Stacks()), AddDoorCommand(r, door)))
    {
      if selectedRoom == null {
        return Rejected(NoSelection);
      }
      outcome := canvas.AddDoorToRoom(selectedRoom, direction, length, canvasWidth, canvasHeight);
    }

    /** The Add Window action, guarded like Add Door and decided by WindowDecision. */
    method AddWindowAction(direction: string, length: int) returns (outcome: Outcome)
      modifies canvas`undoStack, canvas`redoStack, (if selectedRoom == null then {} else {selectedRoom})`windows
      ensures selectedRoom == null ==> outcome == Rejected(NoSelection) && canvas.Stacks() == old(canvas.Stacks())
      ensures selectedRoom != null ==>
                var r := selectedRoom;
                var d := WindowDecision(r.Bounds(), direction, length, old(DoorOnWall(r, direction)),
                                        old(canvas.WallShared(r, direction)), old(ItemRects(r)));
                && (d.Reject? ==> outcome == Rejected(d.error) && r.windows == old(r.windows) &&
                                  canvas.Stacks() == old(canvas.Stacks()))
                && (d.Accept? ==>
                      && outcome == Accepted
                      && |r.windows| == |old(r.windows)| + 1 && r.windows[..|old(r.windows)|] == old(r.windows)
                      && var window := r.windows[|old(r.windows)|];
                         && fresh(window) && window.Bounds() == d.rect && window.direction == direction
                         && window.room == r
                         && canvas.Stacks() == Record(old(canvas.Stacks()), AddWindowCommand(r, window)))
    {
      if selectedRoom == null {
        return Rejected(NoSelection);
      }
      outcome := canvas.AddWindowToRoom(selectedRoom, direction, length);
    }

    /** An Add Chair, Table, Bed, Sofa, Dining Set, Commode, Washbasin or
        Shower action: nothing without a selected room or with a non-positive
        dimension; otherwise a new piece of that type, linked to the selected
        room, joins the room and the canvas and is recorded. */
    method AddFurnitureAction(furnitureType: string, width: int, height: int) returns (outcome: Outcome)
      modifies canvas`furnitures, canvas`undoStack, canvas`redoStack,
               (if selectedRoom == null then {} else {selectedRoom})`furnitures
      ensures outcome.Accepted? <==> selectedRoom != null && width > 0 && height > 0
      ensures selectedRoom == null ==> outcome == Rejected(NoSelection)
      ensures selectedRoom != null && (width <= 0 || height <= 0) ==> outcome == Rejected(InvalidInput)
      ensures outcome.Rejected? ==>
                canvas.furnitures == old(canvas.furnitures) && canvas.Stacks() == old(canvas.Stacks()) &&
                (selectedRoom != null ==> selectedRoom.furnitures == old(selectedRoom.furnitures))
      ensures outcome.Accepted? ==>
                && selectedRoom != null
                && |canvas.furnitures| == |old(canvas.furnitures)| + 1
                && canvas.furnitures[..|old(canvas.furnitures)|] == old(canvas.furnitures)
                && var f := canvas.furnitures[|old(canvas.furnitures)|];
                   && fresh(f)
                   && f.width == width && f.height == height && f.furnitureType == furnitureType
                   && f.room == selectedRoom && f.Position() == Point(0, 0) && f.angle == 0
                   && selectedRoom.furnitures == old(selectedRoom.furnitures) + [f]
                   && canvas.Stacks() == Record(old(canvas.Stacks()), AddFurnitureCommand(selectedRoom, f))
    {
      if selectedRoom == null {
        return Rejected(NoSelection);
      }
      if width <= 0 || height <= 0 {
        return Rejected(InvalidInput);
      }
      var f := new Furniture(width, height, furnitureType, selectedRoom);
      canvas.AddFurnitureToRoom(selectedRoom, f);
      return Accepted;
    }

    // -------------------------------------------------------------- delete

    /** The Delete Room action: with a selected room and the deletion
        confirmed, a DeleteRoomCommand snapshotting the room's children is
        executed and recorded, and the selection is cleared. The room keeps
        its own child lists. */
    method DeleteSelectedRoom(confirmed: bool)
      modifies this`selectedRoom, this`deleteEnabled, canvas`rooms, canvas`furnitures,
               canvas`undoStack, canvas`redoStack
      ensures old(selectedRoom) == null || !confirmed ==>
                && selectedRoom == old(selectedRoom) && deleteEnabled == old(deleteEnabled)
                && canvas.rooms == old(canvas.rooms) && canvas.furnitures == old(canvas.furnitures)
                && canvas.Stacks() == old(canvas.Stacks())
      // The removal is written as an equation so that it is carried past the
      // recording as one fact.
      ensures old(selectedRoom) != null && confirmed ==>
                && var r := old(selectedRoom);
                   && canvas.RoomDeleted(r, r.furnitures) == true
                   && canvas.Stacks() ==
                        Record(old(canvas.Stacks()), DeleteRoomCommand(r, r.doors, r.windows, r.furnitures))
                   && selectedRoom == null && !deleteEnabled
      ensures old(canvas.NoOverlap()) ==> canvas.NoOverlap()
    {
      if selectedRoom != null && confirmed {
        var r := selectedRoom;
        var cmd := DeleteRoomCommand(r, r.doors, r.windows, r.furnitures);
        ghost var before := canvas.rooms;
        canvas.ExecuteDeleteRoom(r, r.furnitures);
        if Disjoint(before) {
          DisjointRemove(before, r);
        }
        canvas.PushUndo(cmd);
        canvas.ClearRedo();
        selectedRoom := null;
        OnRoomSelected(null);
      }
    }

    /** Delete Room confirmed, then Undo. The room comes back at the end of
        the room list, and its furniture at the end of the canvas list. The
        room kept its own child lists through the deletion, and the undo
        appends the backed-up children to them again, so each list now holds
        every child twice. */
    method DeleteThenUndo()
      requires selectedRoom != null
      modifies this`selectedRoom, this`deleteEnabled, canvas`rooms, canvas`furnitures,
               canvas`undoStack, canvas`redoStack
      modifies selectedRoom, DoorObjects(selectedRoom.doors), WindowObjects(selectedRoom.windows),
               FurnitureObjects(selectedRoom.furnitures)
      ensures var r: Room := old(selectedRoom);
              && canvas.rooms == RemoveFirst(old(canvas.rooms), r) + [r]
              && canvas.furnitures == RemoveEach(old(canvas.furnitures), old(r.furnitures)) + old(r.furnitures)
              && (multiset(old(r.furnitures)) <= multiset(old(canvas.furnitures)) ==>
                    multiset(canvas.furnitures) == multiset(old(canvas.furnitures)))
              && r.doors == old(r.doors) + old(r.doors)
              && r.windows == old(r.windows) + old(r.windows)
              && r.furnitures == old(r.furnitures) + old(r.furnitures)
              && r.Position() == old(r.Position()) && r.name == old(r.name)
              && canvas.Stacks() ==
                   History(old(canvas.undoStack), [DeleteRoomCommand(r, old(r.doors), old(r.windows), old(r.furnitures))])
              && selectedRoom == null
    {
      var r: Room := selectedRoom;
      ghost var pieces, furnitures0 := r.furnitures, canvas.furnitures;
      ghost var cmd := DeleteRoomCommand(r, r.doors, r.windows, r.furnitures);
      ghost var h0 := canvas.Stacks();
      RecordThenUndo(h0, cmd);
      DeleteSelectedRoom(true);
      assert canvas.Stacks() == Record(h0, cmd);
      assert canvas.undoStack[|canvas.undoStack| - 1] == cmd;
      assert this as object !in canvas.UndoTargets(cmd);
      label deleted:
      canvas.PerformUndo();
      assert canvas.RoomRestored@deleted(r, cmd.doorsBackup, cmd.windowsBackup, cmd.furnituresBackup);
      assert canvas.Stacks() == History(h0.undo, [cmd]);
      if multiset(pieces) <= multiset(furnitures0) {
        RemoveEachThenAppend(furnitures0, pieces);
      }
    }

    // -------------------------------------------------------------- load

    /** findRoomForFurniture: a search of the canvas rooms in list order. */
    method FindRoomForFurniture(f: Furniture) returns (room: Room?)
      ensures room == RoomHolding(canvas.rooms, f)
    {
      var i := 0;
      while i < |canvas.rooms|
        invariant 0 <= i <= |canvas.rooms|
        invariant forall j :: 0 <= j < i ==> f !in canvas.rooms[j].furnitures
      {
        if f in canvas.rooms[i].furnitures {
          return canvas.rooms[i];
        }
        i := i + 1;
      }
      return null;
    }

    /** The Load Plan action once the file is read: the canvas lists are
        replaced by the loaded ones, then every piece of furniture is linked
        to the room found for it and every door and window to the room that
        lists it. The undo and redo stacks are kept. */
    method LoadPlan(loadedRooms: seq<Room>, loadedFurnitures: seq<Furniture>)
      modifies canvas`rooms, canvas`furnitures, (set f | f in loadedFurnitures)`room, DoorsOf(loadedRooms)`room,
               WindowsOf(loadedRooms)`room
      ensures canvas.rooms == loadedRooms && canvas.furnitures == loadedFurnitures
      ensures canvas.Stacks() == old(canvas.Stacks())
      // Equations, so that each is carried past the later relinking as one fact.
      ensures FurnitureLinked(loadedRooms, loadedFurnitures) == true
      ensures ChildrenLinked(loadedRooms) == true
    {
      canvas.rooms := loadedRooms;
      canvas.furnitures := loadedFurnitures;
      RelinkFurniture();
      RelinkDoorsAndWindows();
    }

    /** The first loop of the load action: each listed piece of furniture
        gets the room findRoomForFurniture finds for it. */
    method RelinkFurniture()
      modifies (set f | f in canvas.furnitures)`room
      ensures FurnitureLinked(canvas.rooms, canvas.furnitures) == true
    {
      var i := 0;
      while i < |canvas.furnitures|
        invariant 0 <= i <= |canvas.furnitures|
        invariant forall k :: 0 <= k < i ==>
                    canvas.furnitures[k].room == RoomHolding(canvas.rooms, canvas.furnitures[k])
      {
        var holder := FindRoomForFurniture(canvas.furnitures[i]);
        canvas.furnitures[i].SetRoom(holder);
        i := i + 1;
      }
    }

    /** The second loop of the load action: each room, in list order, links
        its doors and windows to itself. */
    method RelinkDoorsAndWindows()
      modifies DoorsOf(canvas.rooms)`room, WindowsOf(canvas.rooms)`room
      ensures ChildrenLinked(canvas.rooms) == true
    {
      var rs := canvas.rooms;
      // The rooms are not changed here, so their lists are fixed values.
      ghost var doorLists: seq<seq<Door>>, windowLists: seq<seq<PlanWindow>> := DoorLists(rs), WindowLists(rs);
      var j := 0;
      while j < |rs|
        invariant 0 <= j <= |rs|
        invariant forall i, d :: 0 <= i < j && d in doorLists[i] ==> d.room == LastHolderRoom(rs, doorLists[..j], d)
        invariant forall i, w :: 0 <= i < j && w in windowLists[i] ==> w.room == LastHolderRoom(rs, windowLists[..j], w)
      {
        LinkRoomAt(rs, doorLists, windowLists, j);
        j := j + 1;
      }
      assert doorLists[..j] == doorLists && windowLists[..j] == windowLists;
      ChildrenLinkedByLists(rs, doorLists, windowLists);
    }
  }

  /** One step of the relinking loop: once the children of the first `j`
      rooms point to the last of those rooms holding them, linking room `j`
      extends this to the first `j` + 1 rooms. */
  method LinkRoomAt(rs: seq<Room>, ghost doorLists: seq<seq<Door>>, ghost windowLists: seq<seq<PlanWindow>>, j: nat)
    requires j < |rs| && j < |doorLists| && j < |windowLists|
    requires doorLists[j] == rs[j].doors && windowLists[j] == rs[j].windows
    requires forall i, d :: 0 <= i < j && d in doorLists[i] ==> d.room == LastHolderRoom(rs, doorLists[..j], d)
    requires forall i, w :: 0 <= i < j && w in windowLists[i] ==> w.room == LastHolderRoom(rs, windowLists[..j], w)
    modifies (set d | d in rs[j].doors)`room, (set w | w in rs[j].windows)`room
    ensures forall i, d :: 0 <= i <= j && d in doorLists[i] ==> d.room == LastHolderRoom(rs, doorLists[..j + 1], d)
    ensures forall i, w :: 0 <= i <= j && w in windowLists[i] ==> w.room == LastHolderRoom(rs, windowLists[..j + 1], w)
  {
    LinkChildren(rs[j]);
    forall i, d | 0 <= i <= j && d in doorLists[i]
      ensures d.room == LastHolderRoom(rs, doorLists[..j + 1], d)
    {
      LastHolderStep(doorLists, j, d);
      if d !in doorLists[j] {
        assert d.room == old(d.room);
      }
    }
    forall i, w | 0 <= i <= j && w in windowLists[i]
      ensures w.room == LastHolderRoom(rs, windowLists[..j + 1], w)
    {
      LastHolderStep(windowLists, j, w);
      if w !in windowLists[j] {
        assert w.room == old(w.room);
      }
    }
  }

  /** One room of the relinking loop: its doors, then its windows, point back to it. */
  method LinkChildren(room: Room)
    modifies (set d | d in room.doors)`room, (set w | w in room.windows)`room
    ensures forall d :: d in room.doors ==> d.room == room
    ensures forall w :: w in room.windows ==> w.room == room
  {
    var k := 0;
    while k < |room.doors|
      invariant 0 <= k <= |room.doors|
      invariant forall i :: 0 <= i < k ==> room.doors[i].room == room
      modifies (set d | d in room.doors)`room
    {
      room.doors[k].SetRoom(room);
      k := k + 1;
    }
    k := 0;
    while k < |room.windows|
      invariant 0 <= k <= |room.windows|
      invariant forall i :: 0 <= i < k ==> room.windows[i].room == room
      modifies (set w | w in room.windows)`room
    {
      room.windows[k].SetRoom(room);
      k := k + 1;
    }
  }
}
