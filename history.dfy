/** Snapshot undo/redo (saveState, undo, redo) as functions on the three pieces
    of state they touch: the present drawing, the undo stack and the redo stack.
    The tops of both stacks are their last elements. */
module History {

  const HistoryCap: nat := 50

  /** The last (at most) 50 entries of a sequence. */
  function Newest<T>(s: seq<T>): seq<T>
  {
    if |s| <= HistoryCap then s else s[|s| - HistoryCap..]
  }

  datatype History<T> = History(present: T, undo: seq<T>, redo: seq<T>)

  /** Push onto the undo stack, dropping the oldest entry past the cap. */
  function CappedPush<T>(stack: seq<T>, x: T): (r: seq<T>)
    requires |stack| <= HistoryCap
    ensures |r| <= HistoryCap
    ensures |r| > 0 && r[|r| - 1] == x
    ensures r == Newest(stack + [x])
    ensures |stack| < HistoryCap ==> |r| == |stack| + 1
  {
    var s := stack + [x];
    if |s| > HistoryCap then s[1..] else s
  }

  /** saveState: remember the present, forget everything that could be redone. */
  function Save<T>(h: History<T>): (r: History<T>)
    requires |h.undo| <= HistoryCap
    ensures r.present == h.present && r.redo == []
    ensures r.undo == CappedPush(h.undo, h.present)
  {
    History(h.present, CappedPush(h.undo, h.present), [])
  }

  /** undo: nothing when there is nothing to undo, else swap the present for the top snapshot. */
  function Undo<T>(h: History<T>): (r: History<T>)
    ensures h.undo == [] ==> r == h
    ensures h.undo != [] ==>
              r.present == h.undo[|h.undo| - 1] && r.undo == h.undo[..|h.undo| - 1] && r.redo == h.redo + [h.present]
  {
    if h.undo == [] then h
    else History(h.undo[|h.undo| - 1], h.undo[..|h.undo| - 1], h.redo + [h.present])
  }

  /** redo: the mirror image of undo; the undo stack grows without the cap check. */
  function Redo<T>(h: History<T>): (r: History<T>)
    ensures h.redo == [] ==> r == h
    ensures h.redo != [] ==>
              r.present == h.redo[|h.redo| - 1] && r.redo == h.redo[..|h.redo| - 1] && r.undo == h.undo + [h.present]
  {
    if h.redo == [] then h
    else History(h.redo[|h.redo| - 1], h.undo + [h.present], h.redo[..|h.redo| - 1])
  }

  /** The two stacks together never hold more than the cap. */
  ghost predicate Bounded<T>(h: History<T>)
  {
    |h.undo| + |h.redo| <= HistoryCap
  }

  /** saveState, undo and redo all keep the stacks bounded. */
  lemma OperationsKeepBounded<T>(h: History<T>)
    requires Bounded(h)
    ensures Bounded(Save(h)) && Bounded(Undo(h)) && Bounded(Redo(h))
  {
  }

  /** Redo undoes an undo: the drawing and both stacks come back. */
  lemma RedoAfterUndo<T>(h: History<T>)
    requires h.undo != []
    ensures Redo(Undo(h)) == h
  {
    var u := Undo(h);
    assert u.redo[..|u.redo| - 1] == h.redo;
    assert u.undo + [u.present] == h.undo;
  }

  /** Undo undoes a redo. */
  lemma UndoAfterRedo<T>(h: History<T>)
    requires h.redo != []
    ensures Undo(Redo(h)) == h
  {
    var r := Redo(h);
    assert r.undo[..|r.undo| - 1] == h.undo;
    assert r.redo + [r.present] == h.redo;
  }

  /** Undo, redo, undo ends where a single undo does. */
  lemma UndoRedoUndo<T>(h: History<T>)
    ensures Undo(Redo(Undo(h))) == Undo(h)
  {
    if h.undo != [] {
      RedoAfterUndo(h);
    }
  }

  /** After saving, undo brings back exactly the saved drawing and nothing is left to redo. */
  lemma UndoAfterSave<T>(h: History<T>)
    requires |h.undo| <= HistoryCap
    ensures Undo(Save(h)).present == h.present
    ensures Undo(Save(h)).redo == [h.present]
  {
  }

  /** A run of saves, each recording the snapshot in turn. */
  function PushAll<T>(stack: seq<T>, snaps: seq<T>): (r: seq<T>)
    requires |stack| <= HistoryCap
    ensures |r| <= HistoryCap
    decreases |snaps|
  {
    if snaps == [] then stack
    else PushAll(CappedPush(stack, snaps[0]), snaps[1..])
  }

  /** Trimming to the newest entries first and appending later does not change the newest entries. */
  lemma NewestOfNewest<T>(a: seq<T>, b: seq<T>)
    ensures Newest(Newest(a) + b) == Newest(a + b)
  {
    if |a| > HistoryCap {
      var k := |a| - HistoryCap;
      assert Newest(a) + b == (a + b)[k..];
      var s := a + b;
      assert s[k..][|s[k..]| - HistoryCap..] == s[|s| - HistoryCap..];
    }
  }

  /** However many snapshots are pushed, the undo stack holds the newest 50, oldest first. */
  lemma {:induction false} PushAllKeepsNewest<T>(stack: seq<T>, snaps: seq<T>)
    requires |stack| <= HistoryCap
    ensures PushAll(stack, snaps) == Newest(stack + snaps)
    decreases |snaps|
  {
    if snaps != [] {
      var full, rest := stack + [snaps[0]], snaps[1..];
      assert snaps == [snaps[0]] + rest;
      assert stack + snaps == full + rest;
      var pushed := CappedPush(stack, snaps[0]);
      assert pushed == Newest(full);
      PushAllKeepsNewest(pushed, rest);
      NewestOfNewest(full, rest);
    }
  }
}
