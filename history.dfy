/** The undo/redo log of the hotspot manager as values: the three fields
    `history`, `currentState` and `shapes`, and what addToHistory, undo and
    redo do to them. The class in module HotSpot is specified by these
    functions. */
module History {
  import opened Shapes

  datatype LogState = LogState(history: seq<seq<Shape>>, currentState: int, shapes: seq<Shape>)

  /** The state the constructor sets up: one empty snapshot, selected. */
  function Initial(): (l: LogState)
    ensures Valid(l) && l.history[0] == [] && l.shapes == []
    ensures !UndoDisabled(l) && RedoDisabled(l)
  {
    LogState([[]], 0, [])
  }

  /** The pointer selects a snapshot or is -1. */
  predicate PointerInRange(l: LogState)
  {
    -1 <= l.currentState < |l.history|
  }

  /** The list the pointer selects; -1 selects the empty list. */
  function Selected(l: LogState): seq<Shape>
    requires PointerInRange(l)
  {
    if l.currentState >= 0 then l.history[l.currentState] else []
  }

  /** The invariant the manager keeps between events. */
  predicate Valid(l: LogState)
  {
    |l.history| >= 1 && PointerInRange(l) && l.shapes == Selected(l) &&
    forall k :: 0 <= k < |l.history| ==> NumberedFrom1(l.history[k])
  }

  /** The active list of a valid state is numbered 1..n. */
  lemma ValidShapesNumbered(l: LogState)
    requires Valid(l)
    ensures NumberedFrom1(l.shapes)
  {
  }

  /** updateButtonStates: when the undo button is disabled. It is disabled
      exactly when pressing it would change nothing. */
  function UndoDisabled(l: LogState): (disabled: bool)
    ensures PointerInRange(l) ==> (disabled <==> Undo(l) == l)
  {
    l.currentState < 0
  }

  /** updateButtonStates: when the redo button is disabled. It is disabled
      exactly when pressing it would change nothing. */
  function RedoDisabled(l: LogState): (disabled: bool)
    ensures PointerInRange(l) ==> (disabled <==> Redo(l) == l)
  {
    l.currentState >= |l.history| - 1
  }

  /** addToHistory(s): renumber s, re-create the initial snapshot if the log
      were empty at -1, drop every snapshot after the pointer, append, and
      move the pointer to the new snapshot. The active list is not touched. */
  function Commit(l: LogState, s: seq<Shape>): (r: LogState)
    requires PointerInRange(l)
    ensures |r.history| >= 1 && r.currentState == |r.history| - 1 && RedoDisabled(r)
    ensures r.history[r.currentState] == Renumber(s) && r.shapes == l.shapes
  {
    var repaired :=
      if l.currentState == -1 && |l.history| == 0 then l.(history := [[]], currentState := 0) else l;
    LogState(repaired.history[..repaired.currentState + 1] + [Renumber(s)], repaired.currentState + 1, l.shapes)
  }

  /** On a valid log the repair branch never fires: the snapshots up to the
      pointer are kept, the new one follows, and nothing after it. From -1
      the result is the single new snapshot, so the initial empty snapshot
      is gone. */
  lemma CommitTruncates(l: LogState, s: seq<Shape>)
    requires Valid(l)
    ensures Commit(l, s).history == l.history[..l.currentState + 1] + [Renumber(s)]
    ensures Commit(l, s).currentState == l.currentState + 1
    ensures l.currentState == -1 ==> Commit(l, s).history == [Renumber(s)]
  {
  }

  /** The repair branch, on the only state where it fires: the result starts
      with the empty snapshot again. */
  lemma CommitRepairsEmptyLog(s: seq<Shape>)
    ensures Commit(LogState([], -1, []), s) == LogState([[], Renumber(s)], 1, [])
  {
  }

  /** undo: move the pointer back one and select that snapshot, or the empty
      list at -1; nothing happens once the pointer is -1. */
  function Undo(l: LogState): (r: LogState)
    requires PointerInRange(l)
    ensures PointerInRange(r) && r.history == l.history
  {
    if l.currentState >= 0 then
      var c := l.currentState - 1;
      l.(currentState := c, shapes := if c >= 0 then l.history[c] else [])
    else l
  }

  /** redo: move the pointer forward one and select that snapshot; nothing
      happens at the last snapshot. */
  function Redo(l: LogState): (r: LogState)
    requires PointerInRange(l)
    ensures PointerInRange(r) && r.history == l.history
  {
    if l.currentState < |l.history| - 1 then
      l.(currentState := l.currentState + 1, shapes := l.history[l.currentState + 1])
    else l
  }

  /** Undo keeps the invariant; it changes the state exactly when the undo
      button is enabled, and then moves the pointer down by one. */
  lemma UndoValid(l: LogState)
    requires Valid(l)
    ensures Valid(Undo(l))
    ensures Undo(l) == l <==> UndoDisabled(l)
    ensures !UndoDisabled(l) ==> Undo(l).currentState == l.currentState - 1
  {
  }

  /** Redo keeps the invariant; it changes the state exactly when the redo
      button is enabled, and then moves the pointer up by one. */
  lemma RedoValid(l: LogState)
    requires Valid(l)
    ensures Valid(Redo(l))
    ensures Redo(l) == l <==> RedoDisabled(l)
    ensures !RedoDisabled(l) ==> Redo(l).currentState == l.currentState + 1
  {
  }

  /** An undo that did something is reverted by a redo, and the other way
      round. */
  lemma UndoRedoRoundTrip(l: LogState)
    requires Valid(l)
    ensures !UndoDisabled(l) ==> Redo(Undo(l)) == l
    ensures !RedoDisabled(l) ==> Undo(Redo(l)) == l
  {
  }

  /** Undo can always step down to -1, where the active list is empty and the
      undo button is disabled. */
  lemma UndoReachesEmpty(l: LogState)
    requires Valid(l) && l.currentState == 0
    ensures Undo(l).currentState == -1 && Undo(l).shapes == [] && UndoDisabled(Undo(l))
  {
  }

  /** The shape list stopDrawing hands to addToHistory and then pushes:
      commit the current list with the new shape appended, then make that
      list the active one. */
  function AppendShape(l: LogState, x: Shape): (r: LogState)
    requires PointerInRange(l)
    ensures PointerInRange(r) && r.currentState == |r.history| - 1
  {
    Commit(l, l.shapes + [x]).(shapes := l.shapes + [x])
  }

  /** A gesture commit on a valid log, with the new shape numbered one past
      the active list as stopDrawing numbers it, keeps the invariant: the
      snapshot committed is the new active list itself. */
  lemma AppendShapeValid(l: LogState, x: Shape)
    requires Valid(l) && x.index == |l.shapes| + 1
    ensures var r := AppendShape(l, x);
            Valid(r) && r.shapes == l.shapes + [x] &&
            r.history == l.history[..l.currentState + 1] + [l.shapes + [x]] &&
            r.currentState == l.currentState + 1 && RedoDisabled(r)
  {
    AppendNext(l.shapes, x);
    RenumberFixes(l.shapes + [x]);
    var r := AppendShape(l, x);
    assert r.history == l.history[..l.currentState + 1] + [l.shapes + [x]];
    forall k | 0 <= k < |r.history| ensures NumberedFrom1(r.history[k]) {
      if k <= l.currentState {
        assert r.history[k] == l.history[k];
      }
    }
  }

  /** A run of gestures, each finished with stopDrawing: the i-th shape of xs
      is appended with the number the active list gives it. */
  function Gestures(l: LogState, xs: seq<Shape>): (r: LogState)
    requires PointerInRange(l)
    ensures PointerInRange(r)
    decreases |xs|
  {
    if xs == [] then l
    else
      var before := Gestures(l, xs[..|xs| - 1]);
      AppendShape(before, xs[|xs| - 1].(index := |before.shapes| + 1))
  }

  /** A gesture commit made at the end of the log only appends. */
  lemma AppendAtEnd(l: LogState, x: Shape)
    requires Valid(l) && RedoDisabled(l) && x.index == |l.shapes| + 1
    ensures Valid(AppendShape(l, x)) && AppendShape(l, x).history == l.history + [l.shapes + [x]]
  {
    AppendShapeValid(l, x);
    assert l.history[..l.currentState + 1] == l.history;
  }

  /** What n gestures from the initial state leave: the pointer at n, redo
      disabled, snapshot k holding the first k shapes numbered 1..k, and the
      active list all n shapes numbered 1..n. */
  predicate AfterGestures(r: LogState, xs: seq<Shape>)
  {
    Valid(r) && r.currentState == |xs| && |r.history| == |xs| + 1 && RedoDisabled(r) &&
    r.shapes == Renumber(xs) &&
    forall k :: 0 <= k <= |xs| ==> r.history[k] == Renumber(xs[..k])
  }

  /** After n gestures from the initial state the pointer is n and the log
      holds every prefix of the shapes, renumbered. */
  lemma {:induction false} GesturesFromInitial(xs: seq<Shape>)
    ensures AfterGestures(Gestures(Initial(), xs), xs)
  {
    if xs == [] {
      assert Renumber(xs) == [];
    } else {
      var init := xs[..|xs| - 1];
      var last := xs[|xs| - 1];
      GesturesFromInitial(init);
      var before := Gestures(Initial(), init);
      var x := last.(index := |before.shapes| + 1);
      AppendAtEnd(before, x);
      RenumberSnoc(init, last);
      assert xs == init + [last];
      var r := Gestures(Initial(), xs);
      assert r.history == before.history + [Renumber(xs)];
      forall k | 0 <= k <= |xs| ensures r.history[k] == Renumber(xs[..k]) {
        if k < |xs| {
          assert xs[..k] == init[..k];
          assert r.history[k] == before.history[k];
        } else {
          assert xs[..k] == xs;
        }
      }
    }
  }

  /** Three gestures save the numbers [1], then [1, 2], then [1, 2, 3]; an
      undo after the third saves [1, 2]. */
  lemma ThreeShapesScenario(a: Shape, b: Shape, c: Shape)
    ensures Indices(Renumber(Gestures(Initial(), [a]).shapes)) == [1]
    ensures Indices(Renumber(Gestures(Initial(), [a, b]).shapes)) == [1, 2]
    ensures Indices(Renumber(Gestures(Initial(), [a, b, c]).shapes)) == [1, 2, 3]
    ensures Indices(Renumber(Undo(Gestures(Initial(), [a, b, c])).shapes)) == [1, 2]
  {
    GesturesFromInitial([a]);
    GesturesFromInitial([a, b]);
    GesturesFromInitial([a, b, c]);
    var r := Gestures(Initial(), [a, b, c]);
    assert [a, b, c][..2] == [a, b];
    assert Undo(r).shapes == Renumber([a, b]);
    RenumberIdempotent([a]);
    RenumberIdempotent([a, b]);
    RenumberIdempotent([a, b, c]);
  }

  /** Committing after an undo loses the snapshot that could have been
      redone: from [[], S1, S2], undo and a new gesture give [[], S1, S3],
      and redo does nothing. */
  lemma BranchTruncation(a: Shape, b: Shape, c: Shape)
    ensures var l := Gestures(Initial(), [a, b]);
            var u := Undo(l);
            var r := AppendShape(u, c.(index := |u.shapes| + 1));
            r.history == [[], [a.(index := 1)], [a.(index := 1), c.(index := 2)]] &&
            r.currentState == 2 && RedoDisabled(r) && Redo(r) == r
  {
    GesturesFromInitial([a, b]);
    var l := Gestures(Initial(), [a, b]);
    assert [a, b][..1] == [a] && [a, b][..0] == [];
    assert Renumber([a]) == [a.(index := 1)];
    assert l.history[0] == [] && l.history[1] == [a.(index := 1)];
    var u := Undo(l);
    UndoValid(l);
    assert u.shapes == [a.(index := 1)];
    AppendShapeValid(u, c.(index := |u.shapes| + 1));
    assert u.history[..u.currentState + 1] == [[], [a.(index := 1)]];
    assert u.shapes + [c.(index := 2)] == [a.(index := 1), c.(index := 2)];
  }
}
