/** A value-level model of the undoable integer set built by delegation.
    An IntSet is a set of ints, the undo history is a stack of reversal
    actions, and every call on the composed set is one step of a state
    machine over the pair. The classes in module DelegationPattern are
    proved to take exactly these steps, and Scenarios.Perform carries that
    over whole sequences of calls, so the lemmas below hold of the objects. */
module UndoModel {

  /** One traced reversal step. In the source a traced entry is a closure
      that calls the embedded IntSet's Add or Delete on a captured value;
      NoOp stands for a nil entry, which Undo skips. */
  datatype Action = AddValue(value: int) | DeleteValue(value: int) | NoOp

  /** Outcome of an Undo: success, or the error the source creates. */
  datatype Outcome = Ok | Err(message: string)

  const NoFunctionTraced: string := "no function traced"

  /** Running a traced action against the raw IntSet: the target value ends
      up in the state the action names, every other value keeps its
      membership, and a nil entry changes nothing. */
  function Apply(a: Action, s: set<int>): (r: set<int>)
    ensures a.NoOp? ==> r == s
    ensures a.AddValue? ==> a.value in r
    ensures a.DeleteValue? ==> a.value !in r
    ensures forall y :: (a.NoOp? || y != a.value) ==> (y in r <==> y in s)
  {
    match a
    case AddValue(v) => s + {v}
    case DeleteValue(v) => s - {v}
    case NoOp => s
  }

  /** The state of an IntSetWithUndo: the inner set and the traced history,
      oldest entry first. */
  datatype State = State(elems: set<int>, history: seq<Action>)

  /** What NewIntSetWithUndo builds: an empty set and an empty history. */
  const Init: State := State({}, [])

  /** The calls a client can make on an IntSetWithUndo. Trace is the
      Undoer's Trace, reachable on the wrapper through Go's promotion of the
      embedded interface's methods. */
  datatype Call = Add(x: int) | Delete(x: int) | Trace(action: Action) | Undo

  /** The entry a recording call pushes: the inverse of the CALL (not of its
      effect) for Add and Delete, the given action for a raw Trace. Replayed
      on any set, the entry of Add(x) leaves x absent and that of Delete(x)
      leaves x present, whatever x's membership; since the entry targets x,
      no other value moves (the contract of Apply). */
  function Recorded(c: Call): (a: Action)
    requires !c.Undo?
    ensures c.Add? || c.Delete? ==>
      forall s :: (c.x in Apply(a, s)) == c.Delete?
    ensures c.Add? || c.Delete? ==> !a.NoOp? && a.value == c.x
    ensures c.Trace? ==> a == c.action
  {
    match c
    case Add(x) => DeleteValue(x)
    case Delete(x) => AddValue(x)
    case Trace(a) => a
  }

  /** One call on the composed set. Only Undo on an empty history fails, a
      failure changes nothing, Undo only ever shortens the history (replay
      goes to the raw set and records nothing), and every other call grows
      the history by exactly one entry on top of the old entries. */
  function Step(st: State, c: Call): (r: (State, Outcome))
    ensures r.1.Err? <==> c.Undo? && st.history == []
    ensures r.1.Err? ==> r.0 == st && r.1.message == NoFunctionTraced
    ensures c.Undo? ==> r.0.history <= st.history
    ensures c.Undo? && st.history != [] ==> |r.0.history| == |st.history| - 1
    ensures !c.Undo? ==> st.history <= r.0.history && |r.0.history| == |st.history| + 1
    ensures !c.Undo? ==> r.0.history[|st.history|] == Recorded(c)
  {
    match c
    case Add(x) => (State(st.elems + {x}, st.history + [DeleteValue(x)]), Ok)
    case Delete(x) => (State(st.elems - {x}, st.history + [AddValue(x)]), Ok)
    case Trace(a) => (State(st.elems, st.history + [a]), Ok)
    case Undo =>
      if |st.history| == 0 then (st, Err(NoFunctionTraced))
      else
        var n := |st.history|;
        (State(Apply(st.history[n - 1], st.elems), st.history[..n - 1]), Ok)
  }

  /** The final state and the outcome of every call of a sequence of calls. */
  datatype Execution = Execution(final: State, outcomes: seq<Outcome>)

  function Run(st: State, calls: seq<Call>): (e: Execution)
    ensures |e.outcomes| == |calls|
    decreases |calls|
  {
    if calls == [] then Execution(st, [])
    else
      var (next, out) := Step(st, calls[0]);
      var rest := Run(next, calls[1..]);
      Execution(rest.final, [out] + rest.outcomes)
  }

  /** Number of calls that push a history entry. */
  function Pushes(calls: seq<Call>): nat
  {
    if calls == [] then 0
    else (if calls[0].Undo? then 0 else 1) + Pushes(calls[1..])
  }

  /** Number of Undo calls that succeeded. */
  function Undone(calls: seq<Call>, outcomes: seq<Outcome>): nat
    requires |outcomes| == |calls|
  {
    if calls == [] then 0
    else (if calls[0].Undo? && outcomes[0].Ok? then 1 else 0) + Undone(calls[1..], outcomes[1..])
  }

  /** History accounting: the history holds the entries it started with,
      plus one per recording call, minus one per successful Undo. */
  lemma {:induction false} HistoryAccounting(st: State, calls: seq<Call>)
    decreases |calls|
    ensures var e := Run(st, calls);
      |e.final.history| == |st.history| + Pushes(calls) - Undone(calls, e.outcomes)
  {
    if calls != [] {
      var (next, out) := Step(st, calls[0]);
      HistoryAccounting(next, calls[1..]);
      var e := Run(st, calls);
      assert e.outcomes[1..] == Run(next, calls[1..]).outcomes;
    }
  }

  /** Running two sequences of calls one after the other. */
  lemma {:induction false} RunAppend(st: State, a: seq<Call>, b: seq<Call>)
    decreases |a|
    ensures var ea := Run(st, a); var eb := Run(ea.final, b);
      Run(st, a + b) == Execution(eb.final, ea.outcomes + eb.outcomes)
  {
    if a == [] {
      assert a + b == b;
    } else {
      assert (a + b)[0] == a[0];
      assert (a + b)[1..] == a[1..] + b;
      var (next, out) := Step(st, a[0]);
      RunAppend(next, a[1..], b);
    }
  }

  /** No call of the sequence is an Undo. */
  predicate NoUndo(calls: seq<Call>)
  {
    forall i :: 0 <= i < |calls| ==> !calls[i].Undo?
  }

  /** The entries a sequence of recording calls pushes, in call order. */
  function Inverses(calls: seq<Call>): (r: seq<Action>)
    requires NoUndo(calls)
    ensures |r| == |calls|
    ensures forall i :: 0 <= i < |calls| ==> r[i] == Recorded(calls[i])
  {
    if calls == [] then [] else [Recorded(calls[0])] + Inverses(calls[1..])
  }

  function Undos(n: nat): seq<Call>
  {
    seq(n, _ => Undo)
  }

  /** Recording calls push their inverses in chronological order on top of
      the existing history (and Undo, the only consumer, is absent). */
  lemma {:induction false} RecordingPushesInverses(st: State, calls: seq<Call>)
    requires NoUndo(calls)
    ensures Run(st, calls).final.history == st.history + Inverses(calls)
    decreases |calls|
  {
    if calls != [] {
      var c, rest := calls[0], calls[1..];
      var next := Step(st, c).0;
      NoUndoTail(calls);
      RecordingPushesInverses(next, rest);
      assert Run(st, calls).final == Run(next, rest).final;
      assert next.history == st.history + [Recorded(c)];
      assert Inverses(calls) == [Recorded(c)] + Inverses(rest);
    }
  }

  /** Every call of a sequence without Undo succeeds. */
  lemma {:induction false} RecordingSucceeds(st: State, calls: seq<Call>)
    requires NoUndo(calls)
    ensures forall i :: 0 <= i < |calls| ==> Run(st, calls).outcomes[i] == Ok
    decreases |calls|
  {
    if calls != [] {
      var next := Step(st, calls[0]).0;
      NoUndoTail(calls);
      RecordingSucceeds(next, calls[1..]);
      assert Run(st, calls).outcomes == [Ok] + Run(next, calls[1..]).outcomes;
    }
  }

  lemma NoUndoTail(calls: seq<Call>)
    requires calls != [] && NoUndo(calls)
    ensures NoUndo(calls[1..])
  {
    forall i | 0 <= i < |calls| - 1 ensures !calls[1..][i].Undo? {
      assert calls[1..][i] == calls[i + 1];
    }
  }

  /** n Undos on a history of at least n entries all succeed and remove
      exactly the n most recent entries. */
  lemma {:induction false} UndosPop(st: State, n: nat)
    requires n <= |st.history|
    decreases n
    ensures var e := Run(st, Undos(n));
      e.final.history == st.history[..|st.history| - n] &&
      forall i :: 0 <= i < n ==> e.outcomes[i] == Ok
  {
    if n > 0 {
      var h := st.history;
      var (next, out) := Step(st, Undo);
      assert next.history == h[..|h| - 1];
      assert Undos(n)[0] == Undo;
      assert Undos(n)[1..] == Undos(n - 1);
      UndosPop(next, n - 1);
      assert next.history[..|next.history| - (n - 1)] == h[..|h| - n];
    }
  }

  /** N recording calls followed by N Undos: every Undo succeeds and the
      history is back to what it was before the calls. */
  lemma MutationsThenUndosUnwind(st: State, calls: seq<Call>)
    requires NoUndo(calls)
    ensures var e := Run(st, calls + Undos(|calls|));
      e.final.history == st.history &&
      forall i :: 0 <= i < |e.outcomes| ==> e.outcomes[i] == Ok
  {
    var n := |calls|;
    RunAppend(st, calls, Undos(n));
    RecordingPushesInverses(st, calls);
    RecordingSucceeds(st, calls);
    var mid := Run(st, calls).final;
    UndosPop(mid, n);
    assert mid.history[..|mid.history| - n] == st.history;
  }

  /** From a fresh IntSetWithUndo, N recording calls and N Undos leave an
      empty history, so the next Undo fails with "no function traced". */
  lemma FreshUnwindThenUndoFails(calls: seq<Call>)
    requires NoUndo(calls)
    ensures var e := Run(Init, calls + Undos(|calls|) + [Undo]);
      e.final.history == [] && e.outcomes[2 * |calls|] == Err(NoFunctionTraced)
  {
    var prefix := calls + Undos(|calls|);
    MutationsThenUndosUnwind(Init, calls);
    RunAppend(Init, prefix, [Undo]);
    var mid := Run(Init, prefix);
    assert Run(mid.final, [Undo]).outcomes == [Err(NoFunctionTraced)];
  }

  /** A call whose effect its recorded inverse exactly reverses: Add of an
      absent value or Delete of a present one. */
  predicate EffectiveCall(s: set<int>, c: Call)
  {
    match c
    case Add(x) => x !in s
    case Delete(x) => x in s
    case Trace(_) => false
    case Undo => false
  }

  /** Every call of the sequence is effective in the state it is made in. */
  predicate Effective(st: State, calls: seq<Call>)
    decreases |calls|
  {
    calls == [] ||
    (EffectiveCall(st.elems, calls[0]) && Effective(Step(st, calls[0]).0, calls[1..]))
  }

  /** An Add or Delete followed by Undo always restores the history and
      leaves every other value as it was; the value itself ends in the
      state opposite to the call, whatever it was before: Add then Undo
      always leaves x absent, Delete then Undo always leaves x present. */
  lemma UndoRevertsCall(st: State, c: Call)
    requires c.Add? || c.Delete?
    ensures var e := Run(st, [c, Undo]);
      e.outcomes == [Ok, Ok] &&
      e.final.history == st.history &&
      (c.Add? ==> e.final.elems == st.elems - {c.x}) &&
      (c.Delete? ==> e.final.elems == st.elems + {c.x})
  {
    var (next, out) := Step(st, c);
    assert [c, Undo][1..] == [Undo];
    assert next.history == st.history + [Recorded(c)];
    assert Run(next, [Undo]).final == Step(next, Undo).0;
  }

  /** Add or Delete then Undo gives back exactly the state before the call
      if and only if the call was effective: re-adding a present value or
      re-deleting an absent one is not reversed by Undo. */
  lemma UndoRestoresIffEffective(st: State, c: Call)
    requires c.Add? || c.Delete?
    ensures Run(st, [c, Undo]).final == st <==> EffectiveCall(st.elems, c)
  {
    UndoRevertsCall(st, c);
    var e := Run(st, [c, Undo]);
    if c.Add? && c.x in st.elems {
      assert c.x !in e.final.elems;
    }
    if c.Delete? && c.x !in st.elems {
      assert c.x in e.final.elems;
    }
  }

  /** N effective calls followed by N Undos give back exactly the starting
      state, set and history alike (strict LIFO unwinding). */
  lemma {:induction false} EffectiveUnwindRestores(st: State, calls: seq<Call>)
    requires Effective(st, calls)
    ensures Run(st, calls + Undos(|calls|)).final == st
    decreases |calls|
  {
    if calls == [] {
      assert calls + Undos(0) == [];
    } else {
      var c, rest := calls[0], calls[1..];
      var n := |rest|;
      var next := Step(st, c).0;
      var middle := rest + Undos(n);
      EffectiveUnwindRestores(next, rest);
      assert Undos(n + 1) == Undos(n) + [Undo];
      assert calls + Undos(n + 1) == ([c] + middle) + [Undo];
      RunAppend(st, [c] + middle, [Undo]);
      assert ([c] + middle)[0] == c && ([c] + middle)[1..] == middle;
      assert Run(st, [c] + middle).final == next;
      assert next.history == st.history + [Recorded(c)];
      assert Run(next, [Undo]).final == Step(next, Undo).0;
    }
  }
}
