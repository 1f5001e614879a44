/** The three types of the delegation pattern as objects updated in place:
    IntSet (a set of ints behind a pointer receiver), DefaultUndoer (a stack
    of traced reversal actions) and IntSetWithUndo, which owns one of each,
    records the inverse of every Add and Delete, and forwards Undo. Every
    method of IntSetWithUndo is proved to take exactly one UndoModel.Step. */
module DelegationPattern {
  import opened UndoModel

  /** A membership-only set of ints. */
  class IntSet {
    var data: set<int>

    /** NewIntSet: an empty set. */
    constructor ()
      ensures data == {}
    {
      data := {};
    }

    /** x becomes a member; every other value keeps its membership, and
        adding a member changes nothing. */
    method Add(x: int)
      modifies this
      ensures data == old(data) + {x}
      ensures x in old(data) ==> data == old(data)
    {
      data := data + {x};
    }

    /** x stops being a member; every other value keeps its membership, and
        deleting a non-member changes nothing. */
    method Delete(x: int)
      modifies this
      ensures data == old(data) - {x}
      ensures x !in old(data) ==> data == old(data)
    {
      data := data - {x};
    }
  }

  /** The default Undoer: the traced actions, oldest first. The actions act
      on the IntSet they were traced for, which Undo receives as target. */
  class DefaultUndoer {
    var traced: seq<Action>

    /** new(DefaultUndoer): a nil slice, that is, no traced action. */
    constructor ()
      ensures traced == []
    {
      traced := [];
    }

    /** Pushes a onto the stack; the earlier entries stay as they were. */
    method Trace(a: Action)
      modifies this
      ensures traced == old(traced) + [a]
    {
      traced := traced + [a];
    }

    /** Fails, changing nothing, when nothing is traced. Otherwise runs the
        most recent action against the target set (a nil entry is skipped)
        and then pops exactly that entry. */
    method Undo(target: IntSet) returns (r: Outcome)
      modifies this, target
      ensures old(traced) == [] ==>
        r == Err(NoFunctionTraced) && traced == [] && target.data == old(target.data)
      ensures old(traced) != [] ==>
        r == Ok &&
        traced == old(traced)[..|old(traced)| - 1] &&
        target.data == Apply(old(traced)[|old(traced)| - 1], old(target.data))
    {
      if |traced| == 0 {
        return Err(NoFunctionTraced);
      }
      var f := traced[|traced| - 1];
      match f {
        case AddValue(v) => target.Add(v);
        case DeleteValue(v) => target.Delete(v);
        case NoOp =>
      }
      traced := traced[..|traced| - 1];
      r := Ok;
    }
  }

  /** An IntSet with undo, built by delegation: it owns its IntSet and its
      DefaultUndoer and writes out every forwarding call. */
  class IntSetWithUndo {
    const intSet: IntSet
    const undoer: DefaultUndoer

    /** The value this object stands for: its set and its history. */
    ghost function Abs(): State
      reads intSet, undoer
    {
      State(intSet.data, undoer.traced)
    }

    /** NewIntSetWithUndo: a fresh empty set with a fresh empty history. */
    constructor ()
      ensures fresh(intSet) && fresh(undoer)
      ensures intSet.data == {} && undoer.traced == []
      ensures Abs() == Init
    {
      intSet := new IntSet();
      undoer := new DefaultUndoer();
    }

    /** Inserts x, then traces DeleteValue(x) whether or not x was already
        a member. */
    method Add(x: int)
      modifies intSet, undoer
      ensures intSet.data == old(intSet.data) + {x}
      ensures undoer.traced == old(undoer.traced) + [DeleteValue(x)]
      ensures (Abs(), Ok) == Step(old(Abs()), UndoModel.Add(x))
    {
      intSet.Add(x);
      undoer.Trace(DeleteValue(x));
    }

    /** Removes x, then traces AddValue(x) whether or not x was a member. */
    method Delete(x: int)
      modifies intSet, undoer
      ensures intSet.data == old(intSet.data) - {x}
      ensures undoer.traced == old(undoer.traced) + [AddValue(x)]
      ensures (Abs(), Ok) == Step(old(Abs()), UndoModel.Delete(x))
    {
      intSet.Delete(x);
      undoer.Trace(AddValue(x));
    }

    /** The embedded Undoer's Trace, promoted onto the wrapper: pushes a
        without touching the set. */
    method Trace(a: Action)
      modifies undoer
      ensures undoer.traced == old(undoer.traced) + [a]
      ensures (Abs(), Ok) == Step(old(Abs()), UndoModel.Trace(a))
    {
      undoer.Trace(a);
    }

    /** Forwards to the undoer, whose replay acts on the raw IntSet, so no
        new entry is recorded. */
    method Undo() returns (r: Outcome)
      modifies intSet, undoer
      ensures old(undoer.traced) == [] ==>
        r == Err(NoFunctionTraced) && Abs() == old(Abs())
      ensures old(undoer.traced) != [] ==>
        r == Ok &&
        undoer.traced == old(undoer.traced)[..|old(undoer.traced)| - 1] &&
        intSet.data == Apply(old(undoer.traced)[|old(undoer.traced)| - 1], old(intSet.data))
      ensures (Abs(), r) == Step(old(Abs()), UndoModel.Undo)
    {
      r := undoer.Undo(intSet);
    }
  }
}
