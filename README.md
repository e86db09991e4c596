# Lifecycle-hook dispatcher of meta4foxx, in Dafny

This project models the hook dispatcher of `lib/mixins/index.js`. It
fans one lifecycle event of a CRUD API out to a fixed, ordered list of mixins:

- Four mixin modules are loaded once, in the order meta4, Crypto,
  ContextCollection, NestedModels.
- The exported factory ignores its arguments. It returns an object with ten
  dispatch methods, one per event: `configure`, `endpoint`, `beforeRequest`,
  `beforeCreate`, `afterCreate`, `beforeUpdate`, `afterUpdate`, `beforeRead`,
  `afterRead` and `beforeDelete`.
- Each dispatch method calls the private helper `Mixin(self, action, args)`. The helper walks the list with lodash
  `_.each`. Every mixin whose property `mixin[action]` is truthy has that
  property applied with the caller's `this` and the caller's `arguments`.

Files:

- `actions.dfy`, module `Actions`: the ten events and the property key of
  each (`Name`).
- `mixins.dfy`, module `Mixins`: the handler model, the reference semantics
  `Exec` of one dispatch, the loop `Dispatch` (the helper `Mixin`), the mixin
  objects `MixinModule`, the loaded
  list `Registry`, the factory `Create`, the object `Dispatcher` with its ten
  methods, and the lemmas.

How JavaScript is represented:

- A handler changes the objects it is given, and this model has no heap. The part
  of the heap the handlers touch is a state `S`, and dispatch threads that state from
  one handler to the next. The receiver (`R`) and the argument values (`A`) are
  references. They are forwarded exactly as received.
- A handler that returns ends either normally, returning a value (`V`), or by
  throwing (`E`). In both cases the state it leaves behind is kept. Nothing is rolled back.
- A mixin is a map from property keys to values. A key may be absent, or its
  value may be falsy, callable, or truthy but not callable:
  - An absent key reads as `undefined`, so it is skipped like a falsy value.
  - A truthy value that is not a function passes the `mixin[action] &&` guard.
    Calling `.apply` on it then throws a TypeError (`Fault.NotAFunction`).
- Each dispatch method takes its argument list as a sequence. The source
  forwards the `arguments` object and never checks it against the parameters it
  declares, such as `(model, req, res, options)`.
- Each dispatch method returns `undefined`. The model returns an `Outcome`
  instead: the final state, and the fault if a handler threw. A ghost trace
  records every mixin that passes the `mixin[action]` guard: the mixin's
  position, the key, the receiver, the arguments, and the state at that point.
  For a truthy property that is not a function this is the point where
  `.apply` throws; no handler is invoked.

`Exec` is a function, so two dispatchers built from the same list dispatch
identically when each handler behaves the same on the same receiver,
arguments and state.

## Model

| member | source | states |
|---|---|---|
| `Actions.NamesDistinct` | lib/mixins/index.js:18-47 | two events have the same key only if they are the same event, so no method reaches another event's handlers |
| `Mixins.Implementers` | lib/mixins/index.js:11-12 | the mixins that pass the `mixin[action]` guard: a position is listed iff it is in range and passes the guard, and the list is strictly increasing |
| `Mixins.Dispatch` | lib/mixins/index.js:10-14 | the `_.each` loop ends in the state and fault, and makes the call trace, that the reference semantics `Exec` gives |
| `Mixins.CallsFollowImplementers` | lib/mixins/index.js:10-14 | the mixins in the trace are a prefix of the implementers in list order; all of them when the dispatch finishes; at least one when it raises |
| `Mixins.CallOrder` | lib/mixins/index.js:11-13 | the trace follows list order, holds each mixin at most once, and holds only mixins that pass the guard |
| `Mixins.ForwardsReceiverAndArgs` | lib/mixins/index.js:12 | every handler is applied for the dispatched key, with the dispatch's receiver and exactly its argument list |
| `Mixins.HandlersShareState` | lib/mixins/index.js:10-14 | the first handler sees the starting state, each later one sees what its predecessor left, and the dispatch ends as the last handler ended (unchanged if none ran) |
| `Mixins.FailFast` | lib/mixins/index.js:10-14 | a throw escapes unwrapped, with the state and fault of the last mixin in the trace (the last to pass the guard), and no later implementer is reached |
| `Mixins.NoImplementersNoEffect` | lib/mixins/index.js:12 | with no implementer nothing is invoked and the state is unchanged; nothing is invoked only in that case |
| `Mixins.ReturnValuesIgnored` | lib/mixins/index.js:11-13 | mixin lists that differ only in handler return values dispatch identically, so no return value (not even `false`) stops `_.each` |
| `Mixins.Create` | lib/mixins/index.js:6-8 | the factory's dispatcher walks exactly the four loaded mixins in load order, whatever options it is given |
| `Mixins.CryptoBeforeNestedModels` | lib/mixins/index.js:6 | when Crypto and NestedModels both handle an event and the dispatch finishes, Crypto's handler is invoked before NestedModels', ends normally, and the next handler starts from exactly the state it left |
| `Mixins.Dispatcher.Configure` | lib/mixins/index.js:18-20 | dispatches `configure` only, with the caller's receiver and arguments |
| `Mixins.Dispatcher.Endpoint` | lib/mixins/index.js:21-23 | dispatches `endpoint` only, with the caller's receiver and arguments |
| `Mixins.Dispatcher.BeforeRequest` | lib/mixins/index.js:24-26 | dispatches `beforeRequest` only, with the caller's receiver and arguments |
| `Mixins.Dispatcher.BeforeCreate` | lib/mixins/index.js:27-29 | dispatches `beforeCreate` only, with the caller's receiver and arguments |
| `Mixins.Dispatcher.AfterCreate` | lib/mixins/index.js:30-32 | dispatches `afterCreate` only, with the caller's receiver and arguments |
| `Mixins.Dispatcher.BeforeUpdate` | lib/mixins/index.js:33-35 | dispatches `beforeUpdate` only, with the caller's receiver and arguments |
| `Mixins.Dispatcher.AfterUpdate` | lib/mixins/index.js:36-38 | dispatches `afterUpdate` only, with the caller's receiver and arguments |
| `Mixins.Dispatcher.BeforeRead` | lib/mixins/index.js:39-41 | dispatches `beforeRead` only, with the caller's receiver and arguments |
| `Mixins.Dispatcher.AfterRead` | lib/mixins/index.js:42-44 | dispatches `afterRead` only, with the caller's receiver and arguments |
| `Mixins.Dispatcher.BeforeDelete` | lib/mixins/index.js:45-47 | dispatches `beforeDelete` only, with the caller's receiver and arguments |

## Left out

- Handlers are assumed to terminate. A handler that never returns blocks the
  dispatch, so later mixins never run; the model's handlers are total
  functions and cannot express this.
- The bodies of the four mixins (`./meta4`, `./Crypto`, `./ContextCollection`,
  `./NestedModels`) are not part of this model. Each handler is an arbitrary
  function from receiver, arguments and state to a completion.
- Handlers are modelled as functions of receiver, arguments and a state `S`.
  `S` stands for everything they read (heap, clock, random source, database),
  not only the heap. Nondeterminism is not modelled otherwise.
- The heap is reduced to one state value. Aliasing between the receiver and the
  argument objects, and which object a handler mutates, are not modelled.
- Each mixin is an immutable map of properties. A handler that adds or removes
  properties on a mixin object, or on `lodash` itself, is not modelled.
- A truthy non-function property that has its own callable `apply` member is
  treated like any other non-function and raises a TypeError.
- The binding of `this` when the host copies the dispatch methods onto its API
  object is not modelled. The receiver is an explicit parameter of every method.
- `lib/index.js` is not modelled, apart from its `new Mixins(options)` call:
  - route registration and the documentation router (`Module`);
  - strategy loading by dynamic `require` (`API`);
  - collection creation and dropping through the database driver (`Setup`,
    `Teardown`);
  - option merging and the type dispatch in `options`;
  - `UX` and the re-exports.
  These are framework and driver calls with no logic of their own.
- Console logging.
