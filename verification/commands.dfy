/**
 * The reversible commands of the canvas as values, the list operations they
 * perform (java.util.List add and remove-first-by-identity), and the pair of
 * LIFO stacks that undo and redo move commands between. The effects of
 * executing and undoing a command on the plan are methods of the canvas.
 */
module Commands {
  import opened Geometry
  import opened Model

  /** One constructor per Command class of the canvas, carrying its fields. */
  datatype Command =
    | AddRoomCommand(room: Room)
    | AddRelativeRoomCommand(room: Room)
    | DeleteRoomCommand(room: Room, doorsBackup: seq<Door>, windowsBackup: seq<PlanWindow>,
                        furnituresBackup: seq<Furniture>)
    | MoveRoomCommand(room: Room, oldPosition: Point, newPosition: Point)
    | AddDoorCommand(room: Room, door: Door)
    | AddWindowCommand(room: Room, window: PlanWindow)
    | AddFurnitureCommand(room: Room, furniture: Furniture)
    | MoveFurnitureCommand(furniture: Furniture, oldPosition: Point, newPosition: Point)
    | RotateFurnitureCommand(furniture: Furniture, oldPosition: Point, newPosition: Point)

  // ---------------------------------------------------------------- list operations

  /** The position of the first occurrence of `x` in `s`. */
  function FirstIndex<T(==)>(s: seq<T>, x: T): (i: nat)
    requires x in s
    ensures i < |s| && s[i] == x && x !in s[..i]
  {
    if s[0] == x then 0 else FirstIndex(s[1..], x) + 1
  }

  /** List.remove(Object): drop the first occurrence of `x`, if any. */
  function RemoveFirst<T(==)>(s: seq<T>, x: T): (r: seq<T>)
    ensures x !in s ==> r == s
  {
    if s == [] then []
    else if s[0] == x then s[1..]
    else [s[0]] + RemoveFirst(s[1..], x)
  }

  /** Removing `x` takes exactly one occurrence of it out of the list. */
  lemma {:induction false} RemoveFirstMultiset<T>(s: seq<T>, x: T)
    ensures multiset(RemoveFirst(s, x)) == multiset(s) - multiset{x}
  {
    if s != [] {
      assert s == [s[0]] + s[1..];
      if s[0] != x {
        RemoveFirstMultiset(s[1..], x);
      }
    }
  }

  /** The element removed is the first occurrence, and the others keep their order. */
  lemma {:induction false} RemoveFirstCutsFirstOccurrence<T>(s: seq<T>, x: T)
    requires x in s
    ensures RemoveFirst(s, x) == s[..FirstIndex(s, x)] + s[FirstIndex(s, x) + 1..]
  {
    if s[0] != x {
      var t := s[1..];
      RemoveFirstCutsFirstOccurrence(t, x);
      var i := FirstIndex(t, x);
      assert FirstIndex(s, x) == i + 1;
      calc {
        RemoveFirst(s, x);
        [s[0]] + (t[..i] + t[i + 1..]);
        ([s[0]] + t[..i]) + t[i + 1..];
        { assert s[..i + 1] == [s[0]] + t[..i]; assert s[i + 2..] == t[i + 1..]; }
        s[..i + 1] + s[i + 2..];
      }
    }
  }

  /** Removing an element that was just appended, and nowhere else, restores the list. */
  lemma RemoveFirstUndoesAppend<T>(s: seq<T>, x: T)
    requires x !in s
    ensures RemoveFirst(s + [x], x) == s
  {
    RemoveFirstCutsFirstOccurrence(s + [x], x);
    assert FirstIndex(s + [x], x) == |s|;
    assert (s + [x])[..|s|] == s;
  }

  /** A remove-first for each element of `xs`, in order. */
  function RemoveEach<T(==)>(s: seq<T>, xs: seq<T>): (r: seq<T>)
    ensures multiset(r) <= multiset(s)
  {
    if xs == [] then s
    else
      var rest := RemoveEach(s, xs[..|xs| - 1]);
      RemoveFirstMultiset(rest, xs[|xs| - 1]);
      RemoveFirst(rest, xs[|xs| - 1])
  }

  /** Removing each of `xs` takes exactly their multiset out of the list. */
  lemma {:induction false} RemoveEachMultiset<T>(s: seq<T>, xs: seq<T>)
    ensures multiset(RemoveEach(s, xs)) == multiset(s) - multiset(xs)
  {
    if xs != [] {
      var init, last := xs[..|xs| - 1], xs[|xs| - 1];
      RemoveEachMultiset(s, init);
      RemoveEachLast(s, xs);
      MultisetOfSnoc(xs);
      MultisetStep(multiset(s), multiset(init), last, multiset(RemoveEach(s, init)),
                   multiset(RemoveEach(s, xs)), multiset(xs));
    }
  }

  lemma RemoveEachLast<T>(s: seq<T>, xs: seq<T>)
    requires xs != []
    ensures multiset(RemoveEach(s, xs)) == multiset(RemoveEach(s, xs[..|xs| - 1])) - multiset{xs[|xs| - 1]}
  {
    RemoveFirstMultiset(RemoveEach(s, xs[..|xs| - 1]), xs[|xs| - 1]);
  }

  lemma MultisetOfSnoc<T>(xs: seq<T>)
    requires xs != []
    ensures multiset(xs) == multiset(xs[..|xs| - 1]) + multiset{xs[|xs| - 1]}
  {
    assert xs == xs[..|xs| - 1] + [xs[|xs| - 1]];
  }

  /** One more removal: (a - b) - {x} == a - (b + {x}). */
  lemma MultisetStep<T>(a: multiset<T>, b: multiset<T>, x: T, before: multiset<T>, after: multiset<T>,
                        all: multiset<T>)
    requires before == a - b && after == before - multiset{x} && all == b + multiset{x}
    ensures after == a - all
  {
    forall y
      ensures after[y] == (a - all)[y]
    {
    }
  }

  /** Removing each of `xs` and then appending them again gives back the same
      multiset, provided every element removed was there. */
  lemma RemoveEachThenAppend<T>(s: seq<T>, xs: seq<T>)
    requires multiset(xs) <= multiset(s)
    ensures multiset(RemoveEach(s, xs) + xs) == multiset(s)
  {
    RemoveEachMultiset(s, xs);
  }

  // ---------------------------------------------------------------- history

  /** The two command stacks; the top of each is its last element. */
  datatype History = History(undo: seq<Command>, redo: seq<Command>)

  /** A fresh user action: push its command and clear the redo stack. */
  function Record(h: History, c: Command): (r: History)
    ensures |r.undo| == |h.undo| + 1 && r.undo[..|h.undo|] == h.undo && r.undo[|h.undo|] == c
    ensures r.redo == []
  {
    History(h.undo + [c], [])
  }

  /** performUndo's stack movement: pop the undo stack onto the redo stack;
      nothing happens when the undo stack is empty. */
  function Undo(h: History): (r: History)
    ensures r.undo <= h.undo && h.redo <= r.redo
    ensures h.undo != [] ==>
              |r.undo| == |h.undo| - 1 && |r.redo| == |h.redo| + 1 && r.redo[|h.redo|] == h.undo[|r.undo|]
    ensures h.undo == [] ==> r == h
  {
    if h.undo == [] then h
    else
      var top := h.undo[|h.undo| - 1];
      assert h.undo == h.undo[..|h.undo| - 1] + [top];
      History(h.undo[..|h.undo| - 1], h.redo + [top])
  }

  /** performRedo's stack movement, the mirror image of Undo. */
  function Redo(h: History): (r: History)
    ensures r.redo <= h.redo && h.undo <= r.undo
    ensures h.redo != [] ==>
              |r.redo| == |h.redo| - 1 && |r.undo| == |h.undo| + 1 && r.undo[|h.undo|] == h.redo[|r.redo|]
    ensures h.redo == [] ==> r == h
  {
    if h.redo == [] then h
    else
      var top := h.redo[|h.redo| - 1];
      assert h.redo == h.redo[..|h.redo| - 1] + [top];
      History(h.undo + [top], h.redo[..|h.redo| - 1])
  }

  function Reverse<T>(s: seq<T>): (r: seq<T>)
    ensures |r| == |s|
    ensures forall i :: 0 <= i < |s| ==> r[i] == s[|s| - 1 - i]
  {
    if s == [] then [] else Reverse(s[1..]) + [s[0]]
  }

  /** The timeline of a history: every command done, then every command undone
      from the most recent undo back. Undo and redo only move the cursor. */
  function Timeline(h: History): seq<Command>
  {
    h.undo + Reverse(h.redo)
  }

  lemma UndoRedoKeepTimeline(h: History)
    ensures Timeline(Undo(h)) == Timeline(h)
    ensures Timeline(Redo(h)) == Timeline(h)
  {
    if h.undo != [] {
      var u := Undo(h);
      assert Timeline(u) == Timeline(h);
    }
    if h.redo != [] {
      var r := Redo(h);
      assert Timeline(r) == Timeline(h);
    }
  }

  /** Undo and redo are inverse when there is something to move. */
  lemma UndoRedoInverse(h: History)
    ensures h.undo != [] ==> Redo(Undo(h)) == h
    ensures h.redo != [] ==> Undo(Redo(h)) == h
  {
    if h.undo != [] {
      assert h.undo[..|h.undo| - 1] + [h.undo[|h.undo| - 1]] == h.undo;
    }
    if h.redo != [] {
      assert h.redo[..|h.redo| - 1] + [h.redo[|h.redo| - 1]] == h.redo;
    }
  }

  /** Recording an action discards whatever could have been redone, and
      undoing it right away makes it the only thing that can be redone. */
  lemma RecordThenUndo(h: History, c: Command)
    ensures Undo(Record(h, c)) == History(h.undo, [c])
    ensures Redo(Record(h, c)) == Record(h, c)
  {
    assert (h.undo + [c])[..|h.undo|] == h.undo;
  }

  function UndoTimes(h: History, k: nat): History
  {
    if k == 0 then h else Undo(UndoTimes(h, k - 1))
  }

  function RedoTimes(h: History, k: nat): History
  {
    if k == 0 then h else Redo(RedoTimes(h, k - 1))
  }

  /** k undos leave k more commands on the redo stack, as long as there were k to undo. */
  lemma {:induction false} UndoTimesSizes(h: History, k: nat)
    requires k <= |h.undo|
    ensures |UndoTimes(h, k).undo| == |h.undo| - k
    ensures |UndoTimes(h, k).redo| == |h.redo| + k
  {
    if k > 0 {
      UndoTimesSizes(h, k - 1);
    }
  }

  /** k undos followed by k redos come back to the same history. */
  lemma {:induction false} UndoThenRedoTimes(h: History, k: nat)
    requires k <= |h.undo|
    ensures RedoTimes(UndoTimes(h, k), k) == h
  {
    if k > 0 {
      RedoAfterUndoTimes(h, k);
      UndoThenRedoTimes(h, k - 1);
    }
  }

  /** Peeling the first redo off: k redos after k undos equal k-1 redos after k-1 undos. */
  lemma {:induction false} RedoAfterUndoTimes(h: History, k: nat)
    requires 0 < k <= |h.undo|
    ensures RedoTimes(UndoTimes(h, k), k) == RedoTimes(UndoTimes(h, k - 1), k - 1)
  {
    var before := UndoTimes(h, k - 1);
    UndoTimesSizes(h, k - 1);
    assert before.undo != [];
    UndoRedoInverse(before);
    assert Redo(UndoTimes(h, k)) == before;
    RedoTimesShift(UndoTimes(h, k), k - 1);
  }

  /** RedoTimes(h, k) == RedoTimes(Redo(h), k - 1): the first redo can be taken first. */
  lemma {:induction false} RedoTimesShift(h: History, k: nat)
    ensures RedoTimes(h, k + 1) == RedoTimes(Redo(h), k)
  {
    if k > 0 {
      RedoTimesShift(h, k - 1);
    }
  }
}
