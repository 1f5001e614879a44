/** Client code for IntSetWithUndo, proved from the method contracts alone:
    Perform makes any sequence of calls on an object and ties the result to
    UndoModel.Run; each of the other methods builds a fresh object, makes a
    short sequence of calls and reports what a caller can observe. */
module Scenarios {
  import opened UndoModel
  import opened DelegationPattern

  /** Makes the calls one after the other on s. The outcomes and the new
      state are those of UndoModel.Run, so every lemma about Run holds of
      the object. */
  method Perform(s: IntSetWithUndo, calls: seq<Call>) returns (outs: seq<Outcome>)
    modifies s.intSet, s.undoer
    ensures Execution(s.Abs(), outs) == Run(old(s.Abs()), calls)
  {
    outs := [];
    var i := 0;
    while i < |calls|
      invariant 0 <= i <= |calls|
      invariant Execution(s.Abs(), outs) == Run(old(s.Abs()), calls[..i])
    {
      ghost var before := s.Abs();
      var r: Outcome;
      match calls[i] {
        case Add(x) => s.Add(x); r := Ok;
        case Delete(x) => s.Delete(x); r := Ok;
        case Trace(a) => s.Trace(a); r := Ok;
        case Undo => r := s.Undo();
      }
      assert (s.Abs(), r) == Step(before, calls[i]);
      RunAppend(old(s.Abs()), calls[..i], [calls[i]]);
      assert calls[..i + 1] == calls[..i] + [calls[i]];
      assert Run(before, [calls[i]]) == Execution(s.Abs(), [r]);
      outs := outs + [r];
      i := i + 1;
    }
    assert calls[..i] == calls;
  }

  /** Undo on a fresh object fails and leaves the empty set alone. */
  method UndoOnFreshFails() returns (r: Outcome, elems: set<int>)
    ensures r == Err(NoFunctionTraced) && elems == {}
  {
    var s := new IntSetWithUndo();
    r := s.Undo();
    elems := s.intSet.data;
  }

  /** Add(5); Undo(): the Undo succeeds and 5 is gone, as is the history. */
  method AddThenUndo() returns (r: Outcome, present: bool, depth: nat)
    ensures r == Ok && !present && depth == 0
  {
    var s := new IntSetWithUndo();
    s.Add(5);
    r := s.Undo();
    present := 5 in s.intSet.data;
    depth := |s.undoer.traced|;
  }

  /** Add(5) twice, then Undo three times: the first Undo already removes 5
      and leaves one entry, the second succeeds without changing the set,
      the third fails. */
  method RepeatedAddQuirk() returns (r1: Outcome, r2: Outcome, r3: Outcome,
                                     after1: set<int>, depth1: nat, after2: set<int>)
    ensures r1 == Ok && after1 == {} && depth1 == 1
    ensures r2 == Ok && after2 == {}
    ensures r3 == Err(NoFunctionTraced)
  {
    var s := new IntSetWithUndo();
    s.Add(5);
    s.Add(5);
    r1 := s.Undo();
    after1, depth1 := s.intSet.data, |s.undoer.traced|;
    r2 := s.Undo();
    after2 := s.intSet.data;
    r3 := s.Undo();
  }

  /** Add(1); Delete(1); then Undo re-adds 1, the next Undo removes it, and
      the third Undo fails. */
  method AddDeleteSymmetry() returns (r1: Outcome, after1: set<int>, r2: Outcome, after2: set<int>,
                                      r3: Outcome)
    ensures r1 == Ok && after1 == {1}
    ensures r2 == Ok && after2 == {}
    ensures r3 == Err(NoFunctionTraced)
  {
    var s := new IntSetWithUndo();
    s.Add(1);
    s.Delete(1);
    r1 := s.Undo();
    after1 := s.intSet.data;
    r2 := s.Undo();
    after2 := s.intSet.data;
    r3 := s.Undo();
  }

  /** Add(1); Add(2); Delete(1); the Undos reverse the calls newest first. */
  method LifoAcrossElements() returns (before: set<int>, r1: Outcome, after1: set<int>,
                                       r2: Outcome, after2: set<int>, r3: Outcome,
                                       after3: set<int>, depth3: nat, r4: Outcome)
    ensures before == {2}
    ensures r1 == Ok && after1 == {1, 2}
    ensures r2 == Ok && after2 == {1}
    ensures r3 == Ok && after3 == {} && depth3 == 0
    ensures r4 == Err(NoFunctionTraced)
  {
    var s := new IntSetWithUndo();
    s.Add(1);
    s.Add(2);
    s.Delete(1);
    before := s.intSet.data;
    r1 := s.Undo();
    after1 := s.intSet.data;
    r2 := s.Undo();
    after2 := s.intSet.data;
    r3 := s.Undo();
    after3, depth3 := s.intSet.data, |s.undoer.traced|;
    r4 := s.Undo();
  }

  /** A nil entry pushed through the promoted Trace is popped by Undo
      without changing the set. */
  method NilEntryIsSkipped() returns (r: Outcome, after: set<int>, depth: nat)
    ensures r == Ok && after == {3} && depth == 1
  {
    var s := new IntSetWithUndo();
    s.Add(3);
    s.Trace(NoOp);
    r := s.Undo();
    after, depth := s.intSet.data, |s.undoer.traced|;
  }
}
