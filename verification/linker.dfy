/**
 * PlanItemLinker: finding the room an item belongs to through its
 * back-reference, and deciding whether two items share a room.
 */
module Linker {
  import opened Model

  /** getAssociatedRoom: the stored room of a door, window or piece of
      furniture; a room itself belongs to no room. */
  function AssociatedRoom(item: PlanItem): (r: Room?)
    reads item.Object()
    ensures item.RoomItem? ==> r == null
  {
    match item
    case FurnitureItem(f) => f.room
    case DoorItem(d) => d.room
    case WindowItem(w) => w.room
    case RoomItem(_) => null
  }

  /** areInSameRoom: both items have a room and it is the same object. */
  function AreInSameRoom(a: PlanItem, b: PlanItem): (same: bool)
    reads a.Object(), b.Object()
    ensures same ==> !a.RoomItem? && !b.RoomItem?
  {
    var ra, rb := AssociatedRoom(a), AssociatedRoom(b);
    ra != null && rb != null && ra == rb
  }

  /** Adding a door, window or piece of furniture to a room through
      Room.addDoor, addWindow or addFurniture links it to that room: the
      linker then finds the room for it, and it is in the same room as every
      child the room already held and that was linked to it. */
  method AttachToRoom(room: Room, item: PlanItem)
    requires !item.RoomItem?
    modifies room`doors, room`windows, room`furnitures
    modifies (if item.DoorItem? then {item.door} else {})`room
    modifies (if item.WindowItem? then {item.window} else {})`room
    modifies (if item.FurnitureItem? then {item.furniture} else {})`room
    ensures AssociatedRoom(item) == room
    ensures item.DoorItem? ==> room.doors == old(room.doors) + [item.door]
    ensures item.WindowItem? ==> room.windows == old(room.windows) + [item.window]
    ensures item.FurnitureItem? ==> room.furnitures == old(room.furnitures) + [item.furniture]
    ensures forall d :: d in old(room.doors) && old(d.room) == room ==> AreInSameRoom(item, DoorItem(d))
    ensures forall w :: w in old(room.windows) && old(w.room) == room ==> AreInSameRoom(item, WindowItem(w))
    ensures forall f :: f in old(room.furnitures) && old(f.room) == room ==> AreInSameRoom(item, FurnitureItem(f))
  {
    match item
    case DoorItem(d) => room.AddDoor(d);
    case WindowItem(w) => room.AddWindow(w);
    case FurnitureItem(f) => room.AddFurniture(f);
  }

  /** The relation is symmetric, needs a room on both sides, and holds of an
      item with itself exactly when the item has a room. */
  lemma AreInSameRoomProperties(a: PlanItem, b: PlanItem)
    ensures AreInSameRoom(a, b) == AreInSameRoom(b, a)
    ensures AssociatedRoom(a) == null || AssociatedRoom(b) == null ==> !AreInSameRoom(a, b)
    ensures AreInSameRoom(a, a) <==> AssociatedRoom(a) != null
    ensures a.RoomItem? ==> !AreInSameRoom(a, b)
  {
  }
}
