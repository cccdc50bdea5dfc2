/** OperationsManager: the editor's entry point.  Every edit is an operation
    handed to doOp; the operations done so far are kept so that they can be
    undone and redone.  A dirty flag is set by a successful doOp and
    cleared by loadNarrative, saveNarrative and newFile; undo and redo
    leave it as it is, so it does not say whether the narrative differs
    from the file.

    UndoableOperationSequence is not part of this model.  It is taken to
    keep the operations in a list with a cursor: storing an operation
    executes it, drops the operations after the cursor and appends it;
    undo undoes the operation before the cursor, redo executes the one
    after it again, and each reports that there is nothing to do at its
    end of the list. */
module Manager {
  import opened Common
  import opened EditorState
  import opened Generator
  import opened Composites

  /** An Operation: a single operation, or a CompositeOperation with its
      generators and the operations its last run executed. */
  datatype Operation = Single(step: Step) | Composite(gens: seq<Gen>, done: seq<Step>)

  /** Operation.execute: the operation as it now stands (a composite keeps
      what it ran, for undo) and the new state. */
  function ExecuteOp(o: Operation, s: State): Result<(Operation, State)> {
    match o
    case Single(step) =>
      (match Execute(step, s)
       case Err(e) => Err(e)
       case Ok(s1) => Ok((o, s1)))
    case Composite(gens, _) =>
      (match Run(gens, s)
       case Err(e) => Err(e)
       case Ok((done, s1)) => Ok((Composite(gens, done), s1)))
  }

  /** Operation.undo. */
  function UndoOp(o: Operation, s: State): Result<State> {
    match o
    case Single(step) => Undo(step, s)
    case Composite(_, done) => UndoAll(done, s)
  }

  /** The operation was built on a state like `s`: its captured fields, or
      those of the operations its generators build, describe the state
      each one starts from. */
  ghost predicate Reversible(o: Operation, s: State) {
    match o
    case Single(step) => Tidy(s) && Undoable(step, s)
    case Composite(gens, _) => RunUndoable(gens, s)
  }

  /** Undoing an operation just executed gives back the state it started
      from, and executing it again from there does the same as the first
      time. */
  lemma OperationRoundTrip(o: Operation, s: State)
    requires Reversible(o, s) && ExecuteOp(o, s).Ok?
    ensures UndoOp(ExecuteOp(o, s).value.0, ExecuteOp(o, s).value.1) == Ok(s)
    ensures ExecuteOp(ExecuteOp(o, s).value.0, s) == ExecuteOp(o, s)
  {
    if o.Single? {
      UndoExecute(o.step, s);
    } else {
      UndoRun(o.gens, s);
    }
  }

  /** The outcome of a manager call: done, or the exception it throws. */
  datatype Outcome = Done | Failed(error: Error)

  /** `states[k]` is the state before the k-th operation of the history and
      `states[k + 1]` the state after it: executing it leads forwards and
      undoing it leads back. */
  ghost predicate Chain(history: seq<Operation>, states: seq<State>) {
    && |states| == |history| + 1
    && forall k | 0 <= k < |history| ::
         && ExecuteOp(history[k], states[k]) == Ok((history[k], states[k + 1]))
         && UndoOp(history[k], states[k + 1]) == Ok(states[k])
  }

  /** A chain cut after `n` operations and extended by one more. */
  lemma ChainExtend(history: seq<Operation>, states: seq<State>, n: nat, o: Operation, s1: State)
    requires Chain(history, states) && n <= |history|
    requires ExecuteOp(o, states[n]) == Ok((o, s1)) && UndoOp(o, s1) == Ok(states[n])
    ensures Chain(history[..n] + [o], states[..n + 1] + [s1])
  {
    var h := history[..n] + [o];
    var st := states[..n + 1] + [s1];
    forall k | 0 <= k < |h|
      ensures ExecuteOp(h[k], st[k]) == Ok((h[k], st[k + 1])) && UndoOp(h[k], st[k + 1]) == Ok(st[k])
    {
      if k < n {
        assert h[k] == history[k] && st[k] == states[k] && st[k + 1] == states[k + 1];
      }
    }
  }

  class OperationsManager {
    /** The narrative and its view. */
    var state: State
    /** The operations of the undo sequence, and how many of them are done. */
    var history: seq<Operation>
    var cursor: nat
    var dirtyFlag: bool
    /** The state before and after each operation of the history. */
    ghost var states: seq<State>
    /** Every operation stored so far was reversible where it was done, so
        the history matches `states`. */
    ghost var exact: bool

    ghost predicate Valid()
      reads this
    {
      cursor <= |history| && (exact ==> Chain(history, states) && states[cursor] == state)
    }

    /** A manager on an empty narrative with an empty history. */
    constructor ()
      ensures Valid() && exact
      ensures state == Empty && history == [] && cursor == 0 && !dirtyFlag
    {
      state := Empty;
      history := [];
      cursor := 0;
      dirtyFlag := false;
      states := [Empty];
      exact := true;
    }

    /** doOp: execute the operation and store it after the ones done,
        dropping those undone; the narrative is now dirty.  An operation
        that fails changes nothing. */
    method DoOp(o: Operation) returns (r: Outcome)
      requires Valid()
      modifies this
      ensures Valid()
      ensures ExecuteOp(o, old(state)).Err? ==>
                r == Failed(ExecuteOp(o, old(state)).error) && unchanged(this)
      ensures ExecuteOp(o, old(state)).Ok? ==>
                && r == Done
                && state == ExecuteOp(o, old(state)).value.1
                && history == old(history[..cursor]) + [ExecuteOp(o, old(state)).value.0]
                && cursor == old(cursor) + 1 && dirtyFlag
                && exact == (old(exact) && Reversible(o, old(state)))
      ensures ExecuteOp(o, old(state)).Ok? && exact ==> states == old(states[..cursor + 1]) + [state]
    {
      var res := ExecuteOp(o, state);
      if res.Err? {
        return Failed(res.error);
      }
      var op := res.value.0;
      var s1 := res.value.1;
      ghost var rev := Reversible(o, state);
      if exact && rev {
        OperationRoundTrip(o, state);
        ChainExtend(history, states, cursor, op, s1);
        states := states[..cursor + 1] + [s1];
      }
      exact := exact && rev;
      history := history[..cursor] + [op];
      state := s1;
      cursor := cursor + 1;
      dirtyFlag := true;
      r := Done;
    }

    /** undo: undo the last operation done.  The dirty flag is left as it
        is.  On an exact history it always succeeds and goes one state
        back. */
    method Undo() returns (r: Outcome)
      requires Valid()
      modifies this
      ensures Valid() && exact == old(exact) && states == old(states)
      ensures history == old(history) && dirtyFlag == old(dirtyFlag)
      ensures old(cursor) == 0 ==> r == Failed(NothingToUndo) && unchanged(this)
      ensures old(cursor) > 0 && UndoOp(old(history[cursor - 1]), old(state)).Err? ==>
                r == Failed(UndoOp(old(history[cursor - 1]), old(state)).error) && unchanged(this)
      ensures old(cursor) > 0 && UndoOp(old(history[cursor - 1]), old(state)).Ok? ==>
                r == Done && cursor == old(cursor) - 1
                && state == UndoOp(old(history[cursor - 1]), old(state)).value
      ensures exact && old(cursor) > 0 ==> r == Done && state == states[cursor]
    {
      if cursor == 0 {
        return Failed(NothingToUndo);
      }
      var res := UndoOp(history[cursor - 1], state);
      if res.Err? {
        return Failed(res.error);
      }
      state := res.value;
      cursor := cursor - 1;
      r := Done;
    }

    /** redo: execute the operation after the last one done again.  The
        dirty flag is left as it is.  On an exact history it always
        succeeds and goes one state forward. */
    method Redo() returns (r: Outcome)
      requires Valid()
      modifies this
      ensures Valid() && exact == old(exact) && states == old(states) && dirtyFlag == old(dirtyFlag)
      ensures old(cursor) == old(|history|) ==> r == Failed(NothingToRedo) && unchanged(this)
      ensures old(cursor) < old(|history|) && ExecuteOp(old(history[cursor]), old(state)).Err? ==>
                r == Failed(ExecuteOp(old(history[cursor]), old(state)).error) && unchanged(this)
      ensures old(cursor) < old(|history|) && ExecuteOp(old(history[cursor]), old(state)).Ok? ==>
                && r == Done && cursor == old(cursor) + 1
                && state == ExecuteOp(old(history[cursor]), old(state)).value.1
                && history == old(history)[old(cursor) := ExecuteOp(old(history[cursor]), old(state)).value.0]
      ensures exact && old(cursor) < old(|history|) ==> r == Done && state == states[cursor] && history == old(history)
    {
      if cursor == |history| {
        return Failed(NothingToRedo);
      }
      if exact {
        assert ExecuteOp(history[cursor], states[cursor]) == Ok((history[cursor], states[cursor + 1]));
      }
      var res := ExecuteOp(history[cursor], state);
      if res.Err? {
        return Failed(res.error);
      }
      history := history[cursor := res.value.0];
      state := res.value.1;
      cursor := cursor + 1;
      r := Done;
    }

    /** loadNarrative: `loaded` is what SaveReader read, or None when it
        read nothing.  A loaded narrative replaces the state, the history
        is cleared and the narrative is clean. */
    method LoadNarrative(loaded: Option<State>) returns (r: Outcome)
      requires Valid()
      modifies this
      ensures Valid()
      ensures loaded.None? ==> r == Failed(IOError) && unchanged(this)
      ensures loaded.Some? ==>
                && r == Done && state == loaded.value && history == [] && cursor == 0
                && !dirtyFlag && exact
    {
      if loaded.None? {
        return Failed(IOError);
      }
      state := loaded.value;
      ClearHistory();
      dirtyFlag := false;
      r := Done;
    }

    /** saveNarrative: `written` says whether SaveWriter wrote the file.
        Only a written file makes the narrative clean. */
    method SaveNarrative(written: bool) returns (r: Outcome)
      requires Valid()
      modifies this
      ensures Valid()
      ensures !written ==> r == Failed(IOError) && unchanged(this)
      ensures written ==> r == Done && !dirtyFlag && state == old(state) && history == old(history)
                          && cursor == old(cursor) && exact == old(exact) && states == old(states)
    {
      if !written {
        return Failed(IOError);
      }
      dirtyFlag := false;
      r := Done;
    }

    /** newFile: an empty narrative, an empty history, a clean flag. */
    method NewFile()
      requires Valid()
      modifies this
      ensures Valid() && exact
      ensures state == Empty && history == [] && cursor == 0 && !dirtyFlag
    {
      state := Empty;
      ClearHistory();
      dirtyFlag := false;
    }

    /** UndoableOperationSequence.clearHistory. */
    method ClearHistory()
      modifies this
      ensures history == [] && cursor == 0 && exact && states == [state]
      ensures state == old(state) && dirtyFlag == old(dirtyFlag)
      ensures Valid()
    {
      history := [];
      cursor := 0;
      states := [state];
      exact := true;
    }
  }

  /** An operation done on an exact history and undone at once leaves the
      narrative as it was, with the cursor back where it was; the narrative
      stays dirty. */
  method DoThenUndo(m: OperationsManager, o: Operation) returns (done: Outcome, undone: Outcome)
    requires m.Valid() && m.exact && Reversible(o, m.state) && ExecuteOp(o, m.state).Ok?
    modifies m
    ensures m.Valid() && done == Done && undone == Done
    ensures m.state == old(m.state) && m.cursor == old(m.cursor) && m.dirtyFlag
  {
    done := m.DoOp(o);
    undone := m.Undo();
  }
}
