# Floor planner core in Dafny

This project models the core of a Java Swing floor planner. A plan is a list of
rectangular rooms on a 20-pixel grid. Each room owns lists of doors, windows and
furniture, and each of those children keeps a back-reference to its room. The
canvas holds the room and furniture lists, places new rooms with a row-major
cursor or against a side of a selected room, and refuses any room that would
overlap another. It puts doors and windows on a room's wall under the rules for
private rooms, shared walls and doors on the same wall, and lets the user drag
rooms and furniture with the mouse. Every change is a command object, and undo
and redo move these commands between two stacks. The control panel guards each
button with its checks: a selected room and positive dimensions; a blank name
is treated as no name, and the room is still added. It also rebuilds the back-references after a plan is loaded and deletes
the selected room.

The modules follow the program:

- `Geometry` (geometry.dfy): points and rectangles as `java.awt.Point` and
  `java.awt.Rectangle` treat them. It also holds Java's truncating division
  and the ASCII part of `equalsIgnoreCase`.
- `Placement` (placement.dfy): grid snapping, the cursor, where relative
  rooms and wall items go, and the accept-or-reject decisions for doors and
  windows.
- `Model` (model.dfy): the entity classes `Room`, `Door`, `PlanWindow` and
  `Furniture`, with their fields updated in place.
- `Linker` (linker.dfy): `PlanItemLinker`.
- `Commands` (commands.dfy): the command classes as a datatype, list
  remove-first, and the undo/redo stacks as values.
- `Canvas` (canvas.dfy): `CanvasPanel` as a class. Its methods change the
  lists, the cursor, the drag state and the stacks, and each method is stated
  against predicates over the old and the new state.
- `Controls` (control.dfy): `ControlPanel` as a class over a canvas.

Dialogs are modelled by their answers, passed as parameters: the chosen room
type, the dimensions, the name answer, the direction, the alignment, the
door/window length and the delete confirmation. Door.java is not part of this
model. How a door follows its room when the room moves is therefore the
`DoorPlacer` parameter of the canvas.

## Model

| member | source | states |
|---|---|---|
| Geometry.DivisionFacts | src/app/gui/CanvasPanel.java:212-216 | for a non-negative dividend, the quotient times the divisor lies within one divisor below the dividend |
| Geometry.JavaDiv | src/app/gui/CanvasPanel.java:212-216 | Java `/` by a positive divisor truncates toward zero: for a non-negative `a`, `q*b <= a < q*b + b`; for a negative `a`, `q*b - b < a <= q*b <= 0` |
| Geometry.JavaRem | src/app/model/Furniture.java:130-132 | Java `%` by a positive divisor takes the dividend's sign: in `[0, b)` for a non-negative dividend and in `(-b, 0]` for a negative one; the dividend minus the remainder is a multiple of the divisor |
| Geometry.JavaDivExamples | src/app/gui/CanvasPanel.java:212-216 | on negative operands, truncation differs from floor division (-23/20 is -1 in Java, -2 when floored); concrete remainders of -30 and 390 modulo 360 |
| Geometry.Contains | src/app/model/Room.java:51-54 | a rectangle contains a point only when it has a positive width and height |
| Geometry.Intersects | src/app/model/Room.java:46-49 | two rectangles intersect exactly when the corner at the larger of their x and the larger of their y lies in both |
| Geometry.IntersectsIffCommonPoint | src/app/model/Room.java:46-54 | `Rectangle.intersects` holds exactly when some point lies in both rectangles under `Rectangle.contains` |
| Geometry.IntersectsSymmetric | src/app/model/Room.java:46-49 | intersection is symmetric |
| Geometry.TouchingDoesNotIntersect | src/app/model/Room.java:46-49 | rectangles that meet only along an edge do not intersect |
| Geometry.SpansOverlapIffCommonCoordinate | src/app/gui/CanvasPanel.java:995-997 | roomsOverlap's max-start < min-end test holds exactly when the two half-open spans share a coordinate |
| Geometry.SameLetterIgnoringCase | src/app/gui/CanvasPanel.java:642 | two characters fold to the same character exactly when they are equal or are the lower- and upper-case forms of one ASCII letter |
| Geometry.EqualsIgnoreCase | src/app/gui/CanvasPanel.java:642 | equal strings match, and matching strings have the same length |
| Geometry.EqualsIgnoreCaseIsEquivalence | src/app/gui/CanvasPanel.java:642 | matching ignoring case is reflexive, symmetric and transitive |
| Geometry.EqualsIgnoreCaseExamples | src/app/gui/CanvasPanel.java:642 | "BEDROOM" and "bathroom" match the private room types; a trailing space or another type does not |
| Placement.Snap | src/app/gui/CanvasPanel.java:212-216 | a snapped coordinate is a multiple of 20, at most one grid step from the input, and on the input's side of zero |
| Placement.SnapToGrid | src/app/gui/CanvasPanel.java:212-216 | the snapped point is on the grid; for a point with non-negative coordinates, it is the corner of the grid cell holding the point |
| Placement.SnapFixesGridPoints | src/app/gui/CanvasPanel.java:212-216 | grid coordinates are left unchanged by snapping |
| Placement.SnapToGridIdempotent | src/app/gui/CanvasPanel.java:212-216 | snapping twice is the same as snapping once |
| Placement.SnapExamples | src/app/gui/CanvasPanel.java:212-216 | (23,39) snaps to (20,20), (19,0) to (0,0), and (-30,-20) to (-20,-20) |
| Placement.AdvanceCursor | src/app/gui/CanvasPanel.java:546-550 | the cursor steps right by the width when a second room as wide still fits, or goes back to x = 0 one room height lower |
| Placement.CursorLeavesPlacedRoom | src/app/gui/CanvasPanel.java:546-550 | a room placed at the advanced cursor never intersects the room just placed at the old cursor |
| Placement.CursorRowDiscipline | src/app/gui/CanvasPanel.java:546-550 | the cursor either steps right by the width, leaving room for one more room as wide, or wraps to x = 0 one room height lower, exactly when a second room would not fit |
| Placement.RelativePosition | src/app/gui/CanvasPanel.java:566-614 | a position exists exactly for the four directions and the three alignments |
| Placement.RelativePositionExample | src/app/gui/CanvasPanel.java:566-614 | concrete South/Center, North/Right and West/Left placements; an unknown direction or alignment gives no position |
| Placement.RelativePositionAdjacent | src/app/gui/CanvasPanel.java:570-586 | a North room ends where the base begins, a South room starts where the base ends, and the same holds for East and West |
| Placement.IsExternalWall | src/app/gui/CanvasPanel.java:240-253 | only the four directions can name an external wall, and a room clear of all four canvas edges has none |
| Placement.SharesWall | src/app/gui/CanvasPanel.java:953-984 | a shared wall has a known direction, and the two rooms do not overlap |
| Placement.SharesWallMirror | src/app/gui/CanvasPanel.java:953-984 | a's North wall is shared with b exactly when b's South wall is shared with a; the same holds for East and West |
| Placement.SharedWallRoomsDisjoint | src/app/gui/CanvasPanel.java:953-984 | rooms that share a wall do not overlap |
| Placement.CornerContactIsNotSharing | src/app/gui/CanvasPanel.java:953-997 | rooms that meet only at a corner share no wall |
| Placement.RelativeRoomSharesWallWithBase | src/app/gui/CanvasPanel.java:566-614 | a positive-size room placed relative to a positive-size base shares the chosen wall of the base, for every alignment |
| Placement.RelativeRoomMissesBase | src/app/gui/CanvasPanel.java:566-614 | a relative room never overlaps its base room |
| Placement.WallItemOrigin | src/app/gui/CanvasPanel.java:686-717 | an origin exists exactly for the four directions; the item is centred on the wall to within one pixel and lies on the wall's line, outside the room on the West wall |
| Placement.IsWithinWallBounds | src/app/gui/CanvasPanel.java:874-895 | only a known direction can hold the item, and an item within a horizontal (vertical) wall is no wider (taller) than the room |
| Placement.WallItemRect | src/app/gui/CanvasPanel.java:663-717 | a new door or window exists exactly for the four directions; it is `length` along its wall and `thickness` across it, and its origin lies on the grid |
| Placement.WallItemRectNearCentre | src/app/gui/CanvasPanel.java:686-717 | on a North or South wall, the snapped item starts less than one grid step from the centred position, toward zero |
| Placement.WallPlacement | src/app/gui/CanvasPanel.java:717-729 | accepted exactly when the snapped rectangle exists, lies within its wall and misses every door and window of the room; the accepted rectangle is that rectangle; a rejection is a placement or overlap error |
| Placement.DoorDecision | src/app/gui/CanvasPanel.java:635-737 | an accepted door has a positive length and a known direction; a Bedroom or Bathroom door is on an inner, shared wall; the door lies within its wall, overlaps no door or window, and has door thickness across the wall |
| Placement.DoorDecisionAcceptsExactlyAllowed | src/app/gui/CanvasPanel.java:635-737 | both directions: a door is accepted at `r` exactly when every rule of addDoorToRoom holds for `r` |
| Placement.BedroomOnBoundaryRejectsWestDoor | src/app/gui/CanvasPanel.java:642-647 | a Bedroom at the canvas origin gets no West door, whatever the other inputs |
| Placement.KitchenNorthDoorExample | src/app/gui/CanvasPanel.java:686-717 | a 40-long North door on a 100-wide Kitchen at the origin is centred at x = 30 and snapped to x = 20 |
| Placement.WindowDecision | src/app/gui/CanvasPanel.java:745-840 | an accepted window is on a wall without a door and not shared; it has a positive length, lies within its wall, overlaps no door or window, and has window thickness |
| Placement.WindowDecisionAcceptsExactlyAllowed | src/app/gui/CanvasPanel.java:745-840 | both directions: a window is accepted at `r` exactly when every rule of addWindowToRoom holds for `r` |
| Model.WindowRelocation | src/app/model/PlanWindow.java:85-116 | a new position exists exactly for the four directions; the window is centred on the wall to within one pixel and lies on its line, inside the room on the West wall |
| Model.WindowRelocationVersusFirstPlacement | src/app/model/PlanWindow.java:85-116 | re-centring a window agrees with its first placement on the North, South and East walls; on West it lands one window width further east, inside the room |
| Model.RelocatedWindowStaysOnWall | src/app/model/PlanWindow.java:85-116 | a window within its wall stays within it after its room moves and the window is re-centred |
| Model.NormalizeAngle | src/app/model/Furniture.java:130-132 | the normalised angle is in [0, 360) and equals the mathematical remainder modulo 360 |
| Model.FourClockwiseTurnsIdentity | src/app/model/Furniture.java:137-139 | four clockwise quarter turns restore the angle |
| Model.QuarterTurnWraps | src/app/model/Furniture.java:130-139 | a clockwise quarter turn of a normalised angle adds 90, less a full turn from 270 on |
| Model.TurnsCancel | src/app/model/Furniture.java:137-146 | a clockwise turn and a counter-clockwise turn cancel, in either order |
| Model.TurnsStayQuarter | src/app/model/Furniture.java:130-146 | from a multiple of 90, turning keeps the angle in {0, 90, 180, 270} |
| Model.QuarterRemainder | src/app/model/Furniture.java:130-132 | any whole number of quarter turns reduces modulo 360 to 0, 90, 180 or 270 |
| Model.Door.constructor | src/app/gui/CanvasPanel.java:683 | the door created for addDoorToRoom has its size and direction, sits at the origin and has no room, as PlanWindow's constructor does for windows |
| Model.Door.SetPosition | src/app/gui/CanvasPanel.java:717 | the door is at the given point |
| Model.Door.SetRoom | src/app/model/Room.java:130-133 | the door's back-reference is the given room |
| Model.Door.UpdatePositionRelativeToRoom | src/app/model/Room.java:62-64 | the door points back to the room and is where the placer puts it for the room's bounds, or stays put when the placer declines |
| Model.PlanWindow.constructor | src/app/model/PlanWindow.java:16-20 | a new window has its size and direction, sits at the origin and has no room |
| Model.PlanWindow.SetPosition | src/app/model/PlanWindow.java:38-41 | the window is at the given point |
| Model.PlanWindow.SetRoom | src/app/model/PlanWindow.java:72-74 | the window's back-reference is the given room |
| Model.PlanWindow.UpdatePositionRelativeToRoom | src/app/model/PlanWindow.java:85-116 | the window is linked to the room and re-centred on its wall of the room's new bounds; an unknown direction keeps its position |
| Model.Furniture.constructor | src/app/model/Furniture.java:23-29 | a new piece has its size, type and room, sits at the origin, at angle 0 |
| Model.Furniture.SetPosition | src/app/model/Furniture.java:47-50 | the piece is at the given point and its angle is kept |
| Model.Furniture.SetRoom | src/app/model/Furniture.java:85-87 | the piece's back-reference is the given room |
| Model.Furniture.SetAngle | src/app/model/Furniture.java:130-132 | the angle is the normalisation of the argument |
| Model.Furniture.RotateClockwise | src/app/model/Furniture.java:137-139 | the angle advances a normalised quarter turn and the position is kept |
| Model.Furniture.RotateCounterClockwise | src/app/model/Furniture.java:144-146 | the angle goes back a normalised quarter turn and the position is kept |
| Model.Room.constructor | src/app/model/Room.java:28-39 | a new room has its bounds, type and name, and empty door, window and furniture lists |
| Model.Room.SetName | src/app/model/Room.java:109-111 | the room's name is the given one |
| Model.Room.SetPosition | src/app/model/Room.java:57-73 | the room is at the new point; every door has been through the placer and every window re-centred, both against the new bounds; windows point to the room; lists, name and furniture positions are unchanged |
| Model.Room.AddDoor | src/app/model/Room.java:130-133 | the door is appended and linked to the room; the other lists are unchanged |
| Model.Room.AddWindow | src/app/model/Room.java:135-138 | the window is appended and linked to the room; the other lists are unchanged |
| Model.Room.AddFurniture | src/app/model/Room.java:140-143 | the piece is appended and linked to the room; the other lists are unchanged |
| Linker.AssociatedRoom | src/app/gui/PlanItemLinker.java:16-25 | a room has no associated room |
| Linker.AreInSameRoom | src/app/gui/PlanItemLinker.java:34-41 | a room is never in the same room as anything |
| Linker.AttachToRoom | src/app/model/Room.java:130-143 | after addDoor, addWindow or addFurniture the child's associated room is that room, the child is appended to its list, and it is in the same room as every child of its kind the room already listed and linked |
| Linker.AreInSameRoomProperties | src/app/gui/PlanItemLinker.java:34-41 | areInSameRoom is symmetric and needs a room on both sides; it holds of an item with itself exactly when the item has a room; it never holds for a room |
| Commands.FirstIndex | src/app/gui/CanvasPanel.java:1023-1026 | the index of the first occurrence: it holds `x`, and `x` does not occur before it |
| Commands.RemoveFirst | src/app/gui/CanvasPanel.java:1023-1026 | removing an absent element leaves the list unchanged |
| Commands.RemoveFirstMultiset | src/app/gui/CanvasPanel.java:1023-1026 | List.remove takes exactly one occurrence of the element out of the list's multiset |
| Commands.RemoveFirstCutsFirstOccurrence | src/app/gui/CanvasPanel.java:1023-1026 | the element removed is its first occurrence, and the rest keep their order |
| Commands.RemoveFirstUndoesAppend | src/app/gui/CanvasPanel.java:1018-1026 | removing an element that was just appended, and occurs nowhere else, restores the list |
| Commands.RemoveEach | src/app/gui/CanvasPanel.java:1068-1076 | the removals only take elements out: the result's multiset is within the list's |
| Commands.RemoveEachMultiset | src/app/gui/CanvasPanel.java:1068-1076 | one remove per backed-up piece takes exactly their multiset out of the list |
| Commands.RemoveEachLast | src/app/gui/CanvasPanel.java:1068-1076 | the last removal takes one more occurrence out |
| Commands.MultisetOfSnoc | src/app/gui/CanvasPanel.java:1068-1076 | the multiset of a list is its prefix's multiset plus its last element |
| Commands.MultisetStep | src/app/gui/CanvasPanel.java:1068-1076 | taking out `b` and then `x` is the same as taking out `b + {x}` |
| Commands.RemoveEachThenAppend | src/app/gui/CanvasPanel.java:1068-1096 | deleting a room's furniture from the canvas list and appending it again on undo gives back the same multiset of furniture |
| Commands.Record | src/app/gui/CanvasPanel.java:902-920 | recording a fresh action pushes its command on top of the undo stack, whose older entries are kept in order, and empties the redo stack |
| Commands.Undo | src/app/gui/CanvasPanel.java:925-932 | the undo stack loses its top, which becomes the top of the redo stack; the rest of both stacks is kept; with nothing to undo the stacks are unchanged |
| Commands.Redo | src/app/gui/CanvasPanel.java:937-944 | the redo stack loses its top, which becomes the top of the undo stack; the rest of both stacks is kept; with nothing to redo the stacks are unchanged |
| Commands.Reverse | src/app/gui/CanvasPanel.java:925-944 | the reversed list has the same length and its elements in mirrored positions |
| Commands.UndoRedoKeepTimeline | src/app/gui/CanvasPanel.java:925-944 | undo and redo never change the timeline (done commands followed by undone ones, most recent undo last); they only move the cursor |
| Commands.UndoRedoInverse | src/app/gui/CanvasPanel.java:925-944 | a redo right after an undo, or an undo right after a redo, restores the stacks when there was something to move |
| Commands.RecordThenUndo | src/app/gui/CanvasPanel.java:902-944 | undoing a just-recorded command leaves exactly that command to redo; a redo right after recording does nothing |
| Commands.UndoTimesSizes | src/app/gui/CanvasPanel.java:925-932 | k undos move k commands from the undo stack to the redo stack, provided k commands were there |
| Commands.UndoThenRedoTimes | src/app/gui/CanvasPanel.java:925-944 | k undos followed by k redos come back to the same stacks |
| Commands.RedoAfterUndoTimes | src/app/gui/CanvasPanel.java:925-944 | k redos after k undos equal k-1 redos after k-1 undos |
| Commands.RedoTimesShift | src/app/gui/CanvasPanel.java:937-944 | k+1 redos equal one redo followed by k redos |
| Canvas.DisjointSplit | src/app/gui/CanvasPanel.java:224-231 | a layout is disjoint exactly when it is disjoint apart from one listed room and that room is clear of the others |
| Canvas.DisjointAppend | src/app/gui/CanvasPanel.java:534-552 | appending a room that checkRoomOverlap lets through keeps a disjoint layout disjoint |
| Canvas.DisjointRemove | src/app/gui/CanvasPanel.java:1068-1076 | removing a room keeps a disjoint layout disjoint |
| Canvas.FurnitureAt | src/app/gui/CanvasPanel.java:61-71 | the index of the first piece of furniture containing the point, or the list length when none does |
| Canvas.RoomAt | src/app/gui/CanvasPanel.java:73-83 | the index of the first room containing the point, or the list length when none does |
| Canvas.DoorRects | src/app/gui/CanvasPanel.java:849-865 | the rectangles of the doors, one per door, in order |
| Canvas.WindowRects | src/app/gui/CanvasPanel.java:849-865 | the rectangles of the windows, one per window, in order |
| Canvas.NewItemOverlap | src/app/gui/CanvasPanel.java:849-865 | for a door or window not yet in the room, isOverlappingDoorOrWindow is exactly a collision test against every door and window rectangle of the room, on every wall |
| Canvas.NewDoor | src/app/gui/CanvasPanel.java:683-717 | a fresh, unlinked door with the given direction at the snapped origin |
| Canvas.NewWindow | src/app/gui/CanvasPanel.java:782-820 | a fresh, unlinked window with the given direction at the snapped origin |
| Canvas.CanvasPanel.constructor | src/app/gui/CanvasPanel.java:42-51 | an empty plan: no rooms, no furniture, empty stacks, the cursor at the origin, nothing selected or dragged |
| Canvas.CanvasPanel.CheckRoomOverlap | src/app/gui/CanvasPanel.java:224-231 | true exactly when some other room intersects the room's bounds |
| Canvas.CanvasPanel.IsWallShared | src/app/gui/CanvasPanel.java:953-984 | true exactly when some other room's facing edge lies on the wall and overlaps it along the wall |
| Canvas.CanvasPanel.HasDoorOnWall | src/app/gui/CanvasPanel.java:752-762 | true exactly when a door of the room faces the direction |
| Canvas.CanvasPanel.IsOverlappingDoorOrWindow | src/app/gui/CanvasPanel.java:849-865 | true exactly when the item is a door or window and some other door or window of the room intersects it |
| Canvas.CanvasPanel.PushUndo | src/app/gui/CanvasPanel.java:902-904 | the command is on top of the undo stack, which is otherwise unchanged |
| Canvas.CanvasPanel.PushRedo | src/app/gui/CanvasPanel.java:911-913 | the command is on top of the redo stack, which is otherwise unchanged |
| Canvas.CanvasPanel.ClearRedo | src/app/gui/CanvasPanel.java:918-920 | the redo stack is empty |
| Canvas.CanvasPanel.AddRoom | src/app/gui/CanvasPanel.java:534-552 | accepted exactly when the room at the cursor is clear of every room; a rejection is an overlap error and changes nothing; on success a fresh empty room with the type and name is appended at the cursor, recorded, and the cursor advances; a disjoint plan stays disjoint |
| Canvas.CanvasPanel.AddRelativeRoom | src/app/gui/CanvasPanel.java:566-627 | an unknown direction or alignment is a placement error; otherwise accepted exactly when the relative position is clear; on success a fresh empty room is appended there and recorded; a rejection changes nothing; a disjoint plan stays disjoint |
| Canvas.CanvasPanel.PrepareDoor | src/app/gui/CanvasPanel.java:641-680 | the decision is DoorDecision on the room's current state; an accepted door is fresh, unlinked and on the decided rectangle |
| Canvas.CanvasPanel.PlaceDoor | src/app/gui/CanvasPanel.java:663-729 | the decision is WallPlacement with door thickness; an accepted door is fresh and on the decided rectangle |
| Canvas.CanvasPanel.AddDoorToRoom | src/app/gui/CanvasPanel.java:635-737 | without a room: a no-selection error and nothing changed; otherwise a rejection reports DoorDecision's error and changes nothing, and an acceptance appends one fresh door on the decided rectangle, links it to the room and records it; the room's position, name and other lists are kept |
| Canvas.CanvasPanel.PrepareWindow | src/app/gui/CanvasPanel.java:751-780 | the decision is WindowDecision on the room's current state; an accepted window is fresh, unlinked and on the decided rectangle |
| Canvas.CanvasPanel.PlaceWindow | src/app/gui/CanvasPanel.java:782-832 | the decision is WallPlacement with window thickness; an accepted window is fresh and on the decided rectangle |
| Canvas.CanvasPanel.AddWindowToRoom | src/app/gui/CanvasPanel.java:745-840 | without a room: a no-selection error and nothing changed; otherwise a rejection reports WindowDecision's error and changes nothing, and an acceptance appends one fresh window on the decided rectangle, links it and records it; only the room's window list changes |
| Canvas.CanvasPanel.AddFurnitureToRoom | src/app/gui/CanvasPanel.java:1255-1261 | the piece is appended to the room and to the canvas list, linked to the room, and recorded |
| Canvas.CanvasPanel.RotateFurniture | src/app/gui/CanvasPanel.java:194-204 | the angle turns a normalised quarter in the chosen sense, the position is kept, and a rotation command with equal old and new positions is recorded |
| Canvas.CanvasPanel.AppendRoom | src/app/gui/CanvasPanel.java:1018-1020 | the room is appended and the furniture list is kept |
| Canvas.CanvasPanel.RemoveRoom | src/app/gui/CanvasPanel.java:1023-1026 | the first occurrence of the room leaves the list |
| Canvas.CanvasPanel.MoveRoomTo | src/app/gui/CanvasPanel.java:1114-1121 | the room has been through setPosition and the canvas lists are kept |
| Canvas.CanvasPanel.ExecuteAddDoor | src/app/gui/CanvasPanel.java:1137-1140 | the door is appended to the room and linked |
| Canvas.CanvasPanel.UndoAddDoor | src/app/gui/CanvasPanel.java:1142-1145 | the first occurrence of the door leaves the room's list; its link stays |
| Canvas.CanvasPanel.ExecuteAddWindow | src/app/gui/CanvasPanel.java:1161-1164 | the window is appended to the room and linked |
| Canvas.CanvasPanel.UndoAddWindow | src/app/gui/CanvasPanel.java:1166-1169 | the first occurrence of the window leaves the room's list |
| Canvas.CanvasPanel.ExecuteAddFurniture | src/app/gui/CanvasPanel.java:1185-1189 | the piece is appended to the room and to the canvas list, and linked |
| Canvas.CanvasPanel.UndoAddFurniture | src/app/gui/CanvasPanel.java:1191-1195 | the first occurrence of the piece leaves the room's list and the canvas list |
| Canvas.CanvasPanel.MoveFurnitureTo | src/app/gui/CanvasPanel.java:1213-1220 | the piece is at the point with its angle and room kept |
| Canvas.CanvasPanel.ExecuteDeleteRoom | src/app/gui/CanvasPanel.java:1068-1076 | one remove per backed-up piece from the canvas furniture list, then the room leaves the room list |
| Canvas.CanvasPanel.UndoDeleteRoom | src/app/gui/CanvasPanel.java:1080-1096 | the room is appended again; its backed-up doors, windows and furniture are appended to it and linked back; the furniture is appended to the canvas list |
| Canvas.CanvasPanel.RestoreDoors | src/app/gui/CanvasPanel.java:1085-1087 | every backed-up door is appended, in order, to the room's door list and points back to the room |
| Canvas.CanvasPanel.RestoreWindows | src/app/gui/CanvasPanel.java:1088-1090 | every backed-up window is appended, in order, to the room's window list and points back to the room |
| Canvas.CanvasPanel.RestoreFurnitures | src/app/gui/CanvasPanel.java:1091-1094 | every backed-up piece is appended, in order, to the room's furniture list and to the canvas list, and points back to the room |
| Canvas.CanvasPanel.PerformUndo | src/app/gui/CanvasPanel.java:925-932 | the stacks move as Undo says; with nothing to undo the plan is unchanged; otherwise the popped command's undo() effect holds |
| Canvas.CanvasPanel.UndoCommand | src/app/gui/CanvasPanel.java:1010-1247 | the undo() effect of the command's class holds |
| Canvas.CanvasPanel.PerformRedo | src/app/gui/CanvasPanel.java:937-944 | the stacks move as Redo says; with nothing to redo the plan is unchanged; otherwise the popped command's execute() effect holds |
| Canvas.CanvasPanel.ExecuteCommand | src/app/gui/CanvasPanel.java:1010-1247 | the execute() effect of the command's class holds |
| Canvas.CanvasPanel.ExecuteUndoRedo | src/app/gui/CanvasPanel.java:925-944 | for every command but a deletion, recorded in its own state: after execute() and undo() the canvas lists, the named room's position, name and lists, and the named item's position and angle are as before; a second execute(), as redo applies it, gives back the state the first one left |
| Canvas.CanvasPanel.FurnitureHit | src/app/gui/CanvasPanel.java:61-71 | the scan stops at the first piece containing the point |
| Canvas.CanvasPanel.RoomHit | src/app/gui/CanvasPanel.java:73-83 | the scan stops at the first room containing the point |
| Canvas.CanvasPanel.PressFurniture | src/app/gui/CanvasPanel.java:62-69 | the piece and its room are selected; the piece is dragged with its offset and original position; the room drag is untouched |
| Canvas.CanvasPanel.PressRoom | src/app/gui/CanvasPanel.java:74-81 | the room is selected and dragged with its offset and original position; no furniture is selected |
| Canvas.CanvasPanel.MousePressed | src/app/gui/CanvasPanel.java:58-89 | at the snapped point, the first piece of furniture hit wins, then the first room hit; a press on empty space clears the selection and starts no drag |
| Canvas.CanvasPanel.MoveAndCheck | src/app/gui/CanvasPanel.java:101-102 | the room has moved to the target; the overlap answer is the overlap of the target area with the other rooms; nothing about the other rooms changes |
| Canvas.CanvasPanel.PlaceRoom | src/app/model/Room.java:57-73 | setPosition on a plan room leaves the other rooms, and hence the clearance tests, unchanged |
| Canvas.CanvasPanel.MouseDragged | src/app/gui/CanvasPanel.java:93-116 | a dragged room follows the snapped pointer and is highlighted exactly while it overlaps another room; otherwise a dragged piece follows the pointer with its angle and room kept |
| Canvas.CanvasPanel.ReleaseRoom | src/app/gui/CanvasPanel.java:120-138 | the room stays at a clear target and is recorded; at an overlapping target it returns to where the drag started and nothing is recorded; the plan is then disjoint when it was apart from the dragged room; the drag ends |
| Canvas.CanvasPanel.SettleRoom | src/app/gui/CanvasPanel.java:126-131 | the room is at the target exactly when that was clear, otherwise at its original position; the disjointness carries over |
| Canvas.CanvasPanel.RecordRelease | src/app/gui/CanvasPanel.java:131-137 | a move that stayed is recorded; the highlight and the room drag end |
| Canvas.CanvasPanel.MouseReleased | src/app/gui/CanvasPanel.java:119-150 | a room drag is released as ReleaseRoom says; a furniture drag records the move, unchecked, and ends; with no drag nothing is recorded |
| Controls.FirstHolder | src/app/gui/ControlPanel.java:778-785 | the index of the first list holding the element, or the count of lists |
| Controls.LastHolder | src/app/gui/ControlPanel.java:687-694 | the index of the last list holding the element, or -1 |
| Controls.LastHolderStep | src/app/gui/ControlPanel.java:687-694 | one more room in the loop becomes the last holder exactly when it lists the element |
| Controls.SoleHolder | src/app/gui/ControlPanel.java:668-694 | an element held by exactly one list has that list as both first and last holder |
| Controls.FurnitureLists | src/app/gui/ControlPanel.java:778-785 | the rooms' furniture lists, in room order |
| Controls.DoorLists | src/app/gui/ControlPanel.java:687-694 | the rooms' door lists, in room order |
| Controls.WindowLists | src/app/gui/ControlPanel.java:687-694 | the rooms' window lists, in room order |
| Controls.RoomHolding | src/app/gui/ControlPanel.java:778-785 | null exactly when no room lists the piece; otherwise the first room in order whose list holds it |
| Controls.DoorHolder | src/app/gui/ControlPanel.java:687-694 | null exactly when no room lists the door; otherwise the last room in order that lists it |
| Controls.WindowHolder | src/app/gui/ControlPanel.java:687-694 | null exactly when no room lists the window; otherwise the last room in order that lists it |
| Controls.ChildrenLinkedByLists | src/app/gui/ControlPanel.java:687-694 | children linked to the last holder in the rooms' lists, taken as values, are linked as ChildrenLinked requires |
| Controls.DoorHolderOfSoleRoom | src/app/gui/ControlPanel.java:687-694 | a door listed by exactly one room is linked back to that room |
| Controls.WindowHolderOfSoleRoom | src/app/gui/ControlPanel.java:687-694 | a window listed by exactly one room is linked back to that room |
| Controls.NameEntered | src/app/gui/ControlPanel.java:85-92 | a blank answer means no name; any other answer is the name itself |
| Controls.ControlPanel.constructor | src/app/gui/ControlPanel.java:16-42 | nothing is selected (the field starts null) and Delete Room is disabled (createDeleteRoomButton, called here, disables it at line 723) |
| Controls.ControlPanel.OnRoomSelected | src/app/gui/ControlPanel.java:793-796 | the selection is the given room; Delete Room is enabled exactly when a room is selected |
| Controls.ControlPanel.AddRoomAction | src/app/gui/ControlPanel.java:47-104 | a non-positive dimension is an input error and changes nothing; otherwise the outcome is accepted exactly when the cursor area is clear; the new room carries the entered name; a disjoint plan stays disjoint |
| Controls.ControlPanel.AddRelativeRoomAction | src/app/gui/ControlPanel.java:108-185 | no selection is its own error; then a non-positive dimension is an input error; otherwise the room is accepted exactly when the relative position exists and is clear of every room; a rejection changes nothing; the new room carries the entered name; a disjoint plan stays disjoint |
| Controls.ControlPanel.AddDoorAction | src/app/gui/ControlPanel.java:190-216 | no selection is its own error; otherwise the outcome is DoorDecision on the selected room: a rejection reports its error and changes nothing, an acceptance gives the room one fresh last door on the decided rectangle, linked and recorded |
| Controls.ControlPanel.AddWindowAction | src/app/gui/ControlPanel.java:221-247 | no selection is its own error; otherwise the outcome is WindowDecision on the selected room: a rejection reports its error and changes nothing, an acceptance gives the room one fresh last window on the decided rectangle, linked and recorded |
| Controls.ControlPanel.AddFurnitureAction | src/app/gui/ControlPanel.java:259-299 | accepted exactly when a room is selected and both dimensions are positive; no selection and bad dimensions are distinct errors that change nothing; an accepted piece is fresh, of the type and size, unrotated at the origin, linked to the selected room, on both lists and recorded |
| Controls.ControlPanel.DeleteSelectedRoom | src/app/gui/ControlPanel.java:725-735 | without a selection or confirmation nothing changes; otherwise the room and its furniture leave the canvas lists, a delete command backing up its children is recorded, and the selection is cleared with Delete Room disabled; a disjoint plan stays disjoint |
| Controls.ControlPanel.DeleteThenUndo | src/app/gui/ControlPanel.java:725-735 | a confirmed Delete Room followed by undo puts the room back at the end of the room list and its furniture at the end of the canvas list, the same multiset as before; the room's door, window and furniture lists each hold every child twice; only the deletion is left to redo |
| Controls.ControlPanel.FindRoomForFurniture | src/app/gui/ControlPanel.java:778-785 | the first room, in order, whose furniture list holds the piece, or null |
| Controls.ControlPanel.LoadPlan | src/app/gui/ControlPanel.java:668-694 | the canvas lists are the loaded ones and the stacks are kept; every piece points to its first holding room; every door and window points to the last room listing it |
| Controls.ControlPanel.RelinkFurniture | src/app/gui/ControlPanel.java:676-684 | every piece of the canvas list points to the room findRoomForFurniture finds for it |
| Controls.ControlPanel.RelinkDoorsAndWindows | src/app/gui/ControlPanel.java:687-694 | every door and window listed by a canvas room points to the last room listing it |
| Controls.LinkRoomAt | src/app/gui/ControlPanel.java:687-694 | one pass of the room loop extends "linked to the last holder among the rooms seen" by one room |
| Controls.LinkChildren | src/app/gui/ControlPanel.java:688-693 | every door and every window of the room points back to it |

## Left out

- Rendering is not modelled: painting, the grid display, highlighting colours, wall drawing, images, room colours and fonts. None of it changes the plan.
- The Swing dialogs are not modelled. Their answers are parameters: the room type, the numbers, the name answer, the direction, the alignment, the door/window length and the delete confirmation. Parsing typed text into numbers and cancelling a prompt are not modelled. A cancelled or unparsable prompt ends the action before the canvas is called.
- Error message boxes are not modelled. The model returns the error kind (`PlanError`) instead.
- Saving, and reading a plan from a file, are not modelled. PlanSerializer and PlanData are not part of this model. `LoadPlan` takes the rooms and furniture as read, and the furniture images reloaded on load are left out.
- Door.java is not part of this model. How a door is repositioned when its room moves is the `DoorPlacer` parameter.
- Model.Door.UpdatePositionRelativeToRoom: Door.java is not part of this model; the door sets its back-reference to the room as PlanWindow's counterpart does, and its position comes from the `DoorPlacer`.
- The remaining event handlers are not modelled as members of their own; each only dispatches to an operation that is modelled, and only the dispatch is left out. A double click (`mouseClicked`) turns the first piece of furniture under the snapped point clockwise, as `Canvas.CanvasPanel.RotateFurniture` with the clockwise sense. The Ctrl+Z and Ctrl+Y key bindings call `Canvas.CanvasPanel.PerformUndo` and `Canvas.CanvasPanel.PerformRedo`. `notifyRoomSelected` passes the pressed room, or null, to `Controls.ControlPanel.OnRoomSelected`. The ActionMode setters and `Main` only affect the view and which dialog opens.
- `areItemsIntersecting` is not modelled. Only the intersection test itself is modelled, as `Geometry.Intersects`.
- Java's 32-bit `int` overflow is not modelled. Coordinates are unbounded integers.
- `Geometry.EqualsIgnoreCase`: case folding covers ASCII only. The room type names compared are ASCII.
- Undo and redo do not re-validate the plan, and the model does not add any check. Undoing a delete appends the room at the end of the list. Undoing a delete also appends the backed-up children again to the room's own lists, which still hold them; `Controls.ControlPanel.DeleteThenUndo` states this duplication. Undoing a rotation moves the piece back but does not restore its angle. All of this is modelled as the code does it.
- Canvas.CanvasPanel.ExecuteUndoRedo: the restored state covers the canvas lists, the named room's position, name and child lists, and the named item's position and angle. It leaves out the positions of the doors and windows of a room moved and moved back, and the back-reference of a door, window or piece whose addition was undone (undo does not clear it). A deletion is not covered, as its undo duplicates the children.
- `Canvas.CanvasPanel.PushRedo` is modelled, but nothing in the core calls it. performUndo pushes onto the redo stack directly.
- `Controls.ControlPanel.AddRoomAction`: the contract states the guard, the accept condition, the new room's name and the no-overlap invariant. It does not repeat the canvas's full postcondition, which `Canvas.CanvasPanel.AddRoom` states.
- `Controls.ControlPanel.AddRelativeRoomAction`: the contract states the guards, the accept condition, the new room's name and the no-overlap invariant. It does not repeat the rest of the canvas's postcondition (the new room's position, type and empty lists, and the recorded command), which `Canvas.CanvasPanel.AddRelativeRoom` states.
- `Controls.ControlPanel.LoadPlan`: the positions and sizes of the loaded items are not stated, only the lists and the back-references. Loading never moves anything.
