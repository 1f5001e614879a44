# Undoable integer set by delegation

A Dafny model of the delegation-pattern example in
`code/interface_examples/interface_exmaples_delegation_pattern.go`:

- `IntSet` is a membership-only set of ints. On a set built by `NewIntSet`, `Add` and `Delete`
  always succeed and are idempotent.
- `DefaultUndoer` is a stack of traced reversal actions. `Trace` pushes one. `Undo` fails with
  "no function traced" on an empty stack. Otherwise it runs the newest action, skipping a nil
  one, and pops it.
- `IntSetWithUndo` owns one of each. `Add(x)` inserts x and then always traces "delete x".
  `Delete(x)` removes x and then always traces "add x". Both record the inverse of the call,
  not of its effect. `Undo` forwards to the undoer. The traced actions act on the embedded raw
  `IntSet`, so replaying one never records anything.

Files:

- `undo_model.dfy`, module `UndoModel`: the value-level model and the lemmas about sequences
  of calls.
  - `Action` stands for the traced closures: `AddValue`, `DeleteValue`, and `NoOp` for a nil
    entry. `Apply` runs an action against a set.
  - `State` is the set plus the history. `Call` is one call on the wrapper, `Step` is its
    effect, and `Run` runs a sequence of calls.
- `delegation_pattern.dfy`, module `DelegationPattern`: the three types as classes whose methods
  update their fields in place. Each method of `IntSetWithUndo` is proved to take exactly one
  `UndoModel.Step` on its abstract value `Abs()`.
- `scenarios.dfy`, module `Scenarios`: client code proved from the class contracts alone.
  `Perform` makes any sequence of calls on an object and is proved to end in the state and
  outcomes `UndoModel.Run` gives, so the `UndoModel` lemmas about sequences of calls hold for
  the objects. The other methods make short call sequences on a fresh object.

Three details of the code that the model keeps:

- The embedded `Undoer` interface promotes `Trace` onto `IntSetWithUndo`, so a client can push
  any entry, including nil, besides the entries `Add` and `Delete` record. The model includes
  this as `IntSetWithUndo.Trace` and `Call.Trace`. The history accounting counts every pushing
  call.
- `Undo` checks `f != nil` and skips a nil entry. That is `NoOp`.
- `Undo` applies the newest entry first and then truncates the history. Replay never touches
  the history, so popping first would give the same result; the model keeps the code's order.

## Model

| member | source | states |
|---|---|---|
| `UndoModel.Apply` | code/interface_examples/interface_exmaples_delegation_pattern.go:37-41 | running a traced entry puts its value in the state the entry names, keeps every other value's membership, and a nil entry changes nothing |
| `UndoModel.Recorded` | code/interface_examples/interface_exmaples_delegation_pattern.go:58-70 | the entry Add(x) records, replayed on any set, leaves x absent, and the entry Delete(x) records leaves x present, whatever x's membership was; both target x only, so no other value moves; a raw Trace records its own action |
| `UndoModel.Step` | code/interface_examples/interface_exmaples_delegation_pattern.go:28-74 | only Undo on an empty history fails, with "no function traced", and then nothing changes; Undo only shortens the history (by exactly one when it succeeds); every other call grows it by one and keeps the old entries, with the recorded inverse on top |
| `UndoModel.HistoryAccounting` | code/interface_examples/interface_exmaples_delegation_pattern.go:58-74 | after any sequence of calls, history length = initial length + pushing calls − successful Undos |
| `UndoModel.RecordingPushesInverses` | code/interface_examples/interface_exmaples_delegation_pattern.go:58-70 | a sequence of calls without Undo appends their recorded inverses, in call order, to the old history |
| `UndoModel.RecordingSucceeds` | code/interface_examples/interface_exmaples_delegation_pattern.go:58-70 | every call of a sequence without Undo succeeds |
| `UndoModel.UndosPop` | code/interface_examples/interface_exmaples_delegation_pattern.go:32-44 | n Undos on a history of at least n entries all succeed and remove exactly the n newest entries |
| `UndoModel.MutationsThenUndosUnwind` | code/interface_examples/interface_exmaples_delegation_pattern.go:58-74 | N recording calls then N Undos: every call succeeds and the history is back to what it was before |
| `UndoModel.FreshUnwindThenUndoFails` | code/interface_examples/interface_exmaples_delegation_pattern.go:51-74 | from a fresh object, N recording calls and N Undos empty the history, and the next Undo fails with "no function traced" |
| `UndoModel.UndoRevertsCall` | code/interface_examples/interface_exmaples_delegation_pattern.go:58-70 | Add(x) then Undo always leaves x absent, and Delete(x) then Undo always leaves x present, whatever x was before; both succeed, the history is restored and the other values are untouched |
| `UndoModel.UndoRestoresIffEffective` | code/interface_examples/interface_exmaples_delegation_pattern.go:58-70 | Add/Delete then Undo gives back exactly the earlier state if and only if the call changed the set |
| `UndoModel.EffectiveUnwindRestores` | code/interface_examples/interface_exmaples_delegation_pattern.go:58-74 | N calls that each change the set, then N Undos, give back exactly the starting set and history (LIFO unwinding) |
| `DelegationPattern.IntSet.constructor` | code/interface_examples/interface_exmaples_delegation_pattern.go:9-11 | NewIntSet is empty |
| `DelegationPattern.IntSet.Add` | code/interface_examples/interface_exmaples_delegation_pattern.go:13-15 | x becomes a member, nothing else changes, and adding a member is a no-op |
| `DelegationPattern.IntSet.Delete` | code/interface_examples/interface_exmaples_delegation_pattern.go:17-19 | x stops being a member, nothing else changes, and deleting a non-member is a no-op |
| `DelegationPattern.DefaultUndoer.constructor` | code/interface_examples/interface_exmaples_delegation_pattern.go:54 | a new undoer has traced nothing |
| `DelegationPattern.DefaultUndoer.Trace` | code/interface_examples/interface_exmaples_delegation_pattern.go:28-30 | the history grows by exactly the given action at the end, earlier entries unchanged |
| `DelegationPattern.DefaultUndoer.Undo` | code/interface_examples/interface_exmaples_delegation_pattern.go:32-44 | empty history: the "no function traced" error, with neither history nor set changed; otherwise it succeeds, the set is the newest action applied to it (nil skipped), and exactly that entry is popped |
| `DelegationPattern.IntSetWithUndo.constructor` | code/interface_examples/interface_exmaples_delegation_pattern.go:51-56 | fresh, owned set and undoer; empty set and empty history |
| `DelegationPattern.IntSetWithUndo.Add` | code/interface_examples/interface_exmaples_delegation_pattern.go:58-63 | x inserted and DeleteValue(x) appended unconditionally; one `Step` of the model |
| `DelegationPattern.IntSetWithUndo.Delete` | code/interface_examples/interface_exmaples_delegation_pattern.go:65-70 | x removed and AddValue(x) appended unconditionally; one `Step` of the model |
| `DelegationPattern.IntSetWithUndo.Trace` | code/interface_examples/interface_exmaples_delegation_pattern.go:46-49 | the promoted Trace appends the action and leaves the set alone; one `Step` of the model |
| `DelegationPattern.IntSetWithUndo.Undo` | code/interface_examples/interface_exmaples_delegation_pattern.go:72-74 | forwards to the undoer acting on the raw set: an error with nothing changed on an empty history, otherwise newest entry applied and popped with nothing recorded; one `Step` of the model |
| `Scenarios.Perform` | code/interface_examples/interface_exmaples_delegation_pattern.go:58-74 | any sequence of Add, Delete, Trace and Undo calls on an object ends in the state and outcomes of `UndoModel.Run` from its state before |
| `Scenarios.UndoOnFreshFails` | code/interface_examples/interface_exmaples_delegation_pattern.go:51-74 | Undo on a fresh object fails with "no function traced" |
| `Scenarios.AddThenUndo` | code/interface_examples/interface_exmaples_delegation_pattern.go:58-74 | Add(5); Undo() succeeds, leaving 5 absent and the history empty |
| `Scenarios.RepeatedAddQuirk` | code/interface_examples/interface_exmaples_delegation_pattern.go:58-74 | Add(5); Add(5); the first Undo removes 5 and leaves one entry; the second succeeds with no set change; the third fails |
| `Scenarios.AddDeleteSymmetry` | code/interface_examples/interface_exmaples_delegation_pattern.go:58-74 | Add(1); Delete(1); the first two Undos succeed and give {1}, then {}; the third fails |
| `Scenarios.LifoAcrossElements` | code/interface_examples/interface_exmaples_delegation_pattern.go:58-74 | Add(1); Add(2); Delete(1) gives {2}; three Undos succeed and give {1,2}, {1}, {} with an empty history; the fourth fails |
| `Scenarios.NilEntryIsSkipped` | code/interface_examples/interface_exmaples_delegation_pattern.go:37-43 | a nil entry pushed with the promoted Trace is popped by Undo without changing the set |

## Left out

- Closures: a traced entry is an `Action` value, not an arbitrary function. In Go, a raw `Trace`
  could push a closure that does anything. The model covers only add, delete and nil entries.
- The `Undoer` interface as an open extension point: `IntSetWithUndo.undoer` is always a
  `DefaultUndoer`. Other `Undoer` implementations are not modelled.
- `DelegationPattern.DefaultUndoer.Undo` takes the target `IntSet` as a parameter. In Go, each
  closure captures it. Every closure that `IntSetWithUndo` traces captures the same embedded set,
  so this changes nothing for the composed type.
- Go value semantics: `NewIntSetWithUndo` returns the struct by value. A copy of it shares the
  map and the undoer pointer with the original. The model has one object with constant references
  to its parts, so it does not capture aliasing between copies.
- Zero values: a Go `IntSet` declared without `NewIntSet` has a nil map, so its `Add` panics, and
  an `IntSetWithUndo{}` also has a nil `Undoer`, so its `Add`, `Delete`, `Trace` and `Undo`
  panic. The model builds objects only through their constructors, so these panics are not
  modelled.
- Go's 64-bit `int` is modelled as an unbounded `int`. The values are only stored and never
  computed with, so overflow cannot happen.
- Concurrency: the source has no synchronisation, and the model is single-threaded.
- Side effects of replay during `Undo` on the undo history itself (a closure calling back into
  the wrapper) cannot occur with `Action` values, so they are not modelled.
- `code/interface_examples/interface_exmaples.go`, `code/struct_examples/struct_examples.go`,
  `code/var_examples/var_examples.go`, `code/main.go` and `code/example/example.go` are not part
  of this model. They only print runtime facts (nil interfaces, memory layout, zero values,
  panics) and hold no state to verify.
