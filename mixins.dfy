/** The lifecycle-hook dispatcher of lib/mixins/index.js.

    A mixin is an object whose properties, keyed by event name, may hold
    handlers. Dispatching an event walks the fixed mixin list in order and, for
    every mixin whose property for the event is truthy, applies it with the
    caller's receiver and the caller's argument list.

    Handlers work by side effect on the objects they are given. That part of the
    heap is the state `S`, threaded from one handler to the next; the receiver
    (`R`) and the argument values (`A`) are references forwarded as they are. */
module Mixins {
  import opened Actions

  /** How a JavaScript call ends: it returns a value, or it throws. Either way
      the state the handler left behind stays: nothing is rolled back. */
  datatype Completion<S, E, V> = Normal(state: S, value: V) | Abrupt(state: S, error: E)

  /** A handler body, applied as `handler.apply(receiver, args)`. */
  type Handler<!R, !A, !S, E, V> = (R, seq<A>, S) -> Completion<S, E, V>

  /** What a mixin's property holds: a falsy value (or nothing), a function, or
      a truthy value that is not a function. */
  datatype Property<!R, !A, !S, E, V> = Falsy | Callable(handler: Handler<R, A, S, E, V>) | Uncallable

  /** A mixin module's exports; a key that is absent reads as `undefined`. */
  datatype MixinModule<!R, !A, !S, E, V> = MixinModule(properties: map<string, Property<R, A, S, E, V>>)

  /** What can escape a dispatch: the error a handler threw, unchanged, or the
      TypeError of calling `.apply` on a truthy value that is not a function. */
  datatype Fault<E> = Threw(error: E) | NotAFunction

  /** The end of a dispatch or of one handler call. The dispatch methods return
      nothing: what remains is the state and, if any, the escaping fault. */
  datatype Outcome<S, E> = Finished(state: S) | Raised(state: S, fault: Fault<E>)

  /** One record of the trace: a mixin (by position) that passed the
      `mixin[action]` guard, so that `.apply` was reached on its property, with
      the property key, the receiver, the arguments and the state at that
      point. For a truthy property that is not a function nothing is invoked:
      `.apply` throws before any call. */
  datatype Call<R, A, S> = Call(mixin: nat, action: string, receiver: R, args: seq<A>, before: S)

  /** A dispatch as a whole: how it ended and the mixins that passed the guard
      before it ended, in order. */
  datatype Run<R, A, S, E> = Run(outcome: Outcome<S, E>, calls: seq<Call<R, A, S>>)

  /** The `mixin[action] &&` test. */
  predicate Guard<R, A, S, E, V>(m: MixinModule<R, A, S, E, V>, action: string)
  {
    action in m.properties && !m.properties[action].Falsy?
  }

  /** `mixin[action].apply(self, args)` on state `s`. Its return value is dropped. */
  function Apply<R, A, S, E, V>(p: Property<R, A, S, E, V>, self: R, args: seq<A>, s: S): Outcome<S, E>
  {
    match p
    case Falsy => Finished(s)
    case Uncallable => Raised(s, NotAFunction)
    case Callable(h) =>
      match h(self, args, s)
      case Normal(after, _) => Finished(after)
      case Abrupt(after, e) => Raised(after, Threw(e))
  }

  /** The mixins from position `i` on that pass the guard for `action`, in list
      order. This is the reference for which handlers a dispatch must run. */
  function Implementers<R, A, S, E, V>(ms: seq<MixinModule<R, A, S, E, V>>, i: nat, action: string): (r: seq<nat>)
    requires i <= |ms|
    ensures forall k: int :: k in r <==> i <= k < |ms| && Guard(ms[k], action)
    ensures forall p, q :: 0 <= p < q < |r| ==> r[p] < r[q]
    decreases |ms| - i
  {
    if i == |ms| then []
    else
      var rest := Implementers(ms, i + 1, action);
      if Guard(ms[i], action) then
        assert forall q :: 0 <= q < |rest| ==> rest[q] in rest && rest[q] > i;
        [i] + rest
      else rest
  }

  /** The positions of the mixins in a trace, in trace order. */
  function Indices<R, A, S>(calls: seq<Call<R, A, S>>): (r: seq<nat>)
    ensures |r| == |calls|
  {
    if calls == [] then [] else [calls[0].mixin] + Indices(calls[1..])
  }

  /** What `.apply` on the recorded mixin's property did at that point. */
  function Replay<R, A, S, E, V>(ms: seq<MixinModule<R, A, S, E, V>>, c: Call<R, A, S>): Outcome<S, E>
  {
    if c.mixin < |ms| && c.action in ms[c.mixin].properties
    then Apply(ms[c.mixin].properties[c.action], c.receiver, c.args, c.before)
    else Finished(c.before)
  }

  /** The meaning of dispatching `action` over the mixins from position `i` on,
      starting from state `s`: the `_.each` walk, stopped only by a throw. */
  function Exec<R, A, S, E, V>(ms: seq<MixinModule<R, A, S, E, V>>, i: nat, action: string, self: R, args: seq<A>, s: S): Run<R, A, S, E>
    requires i <= |ms|
    decreases |ms| - i
  {
    if i == |ms| then Run(Finished(s), [])
    else if !Guard(ms[i], action) then Exec(ms, i + 1, action, self, args, s)
    else
      var c := Call(i, action, self, args, s);
      match Apply(ms[i].properties[action], self, args, s)
      case Finished(after) =>
        var rest := Exec(ms, i + 1, action, self, args, after);
        Run(rest.outcome, [c] + rest.calls)
      case Raised(after, f) => Run(Raised(after, f), [c])
  }

  /** The private helper `Mixin(self, action, args)`: the loop over the mixin
      list. The ghost `calls` records every mixin that passed the guard. */
  method Dispatch<R, A, S, E, V>(ms: seq<MixinModule<R, A, S, E, V>>, action: string, self: R, args: seq<A>, s0: S)
    returns (out: Outcome<S, E>, ghost calls: seq<Call<R, A, S>>)
    ensures out == Exec(ms, 0, action, self, args, s0).outcome
    ensures calls == Exec(ms, 0, action, self, args, s0).calls
  {
    var s := s0;
    calls := [];
    var i := 0;
    while i < |ms|
      invariant 0 <= i <= |ms|
      invariant Exec(ms, 0, action, self, args, s0)
             == Run(Exec(ms, i, action, self, args, s).outcome, calls + Exec(ms, i, action, self, args, s).calls)
    {
      var mixin := ms[i];
      if action in mixin.properties && !mixin.properties[action].Falsy? {
        ghost var c := Call(i, action, self, args, s);
        var o := Apply(mixin.properties[action], self, args, s);
        match o
        case Finished(after) =>
          ghost var rest := Exec(ms, i + 1, action, self, args, after);
          assert calls + ([c] + rest.calls) == (calls + [c]) + rest.calls;
          calls := calls + [c];
          s := after;
        case Raised(after, f) =>
          calls := calls + [c];
          return Raised(after, f), calls;
      }
      i := i + 1;
    }
    out := Finished(s);
  }

  // ---------------------------------------------------------------------------
  // Properties of a dispatch

  /** The trace lists the implementers of the event, in list order and each
      at most once; a dispatch that finishes has reached every one of them, and
      one that raises stopped at the last mixin in the trace (the last to pass
      the guard). */
  lemma {:induction false} CallsFollowImplementers<R, A, S, E, V>(ms: seq<MixinModule<R, A, S, E, V>>, i: nat, action: string, self: R, args: seq<A>, s: S)
    requires i <= |ms|
    ensures var run := Exec(ms, i, action, self, args, s);
            var imp := Implementers(ms, i, action);
            |run.calls| <= |imp| && Indices(run.calls) == imp[..|run.calls|]
            && (run.outcome.Finished? ==> Indices(run.calls) == imp)
            && (run.outcome.Raised? ==> run.calls != [])
    decreases |ms| - i
  {
    if i < |ms| {
      if !Guard(ms[i], action) {
        CallsFollowImplementers(ms, i + 1, action, self, args, s);
      } else {
        match Apply(ms[i].properties[action], self, args, s)
        case Finished(after) =>
          CallsFollowImplementers(ms, i + 1, action, self, args, after);
          var rest := Exec(ms, i + 1, action, self, args, after);
          var c := Call(i, action, self, args, s);
          assert ([c] + rest.calls)[1..] == rest.calls;
        case Raised(_, _) =>
      }
    }
  }

  /** The trace follows list order, holds each mixin at most once, and holds
      only mixins that pass the guard for the event. */
  lemma CallOrder<R, A, S, E, V>(ms: seq<MixinModule<R, A, S, E, V>>, action: string, self: R, args: seq<A>, s: S)
    ensures var calls := Exec(ms, 0, action, self, args, s).calls;
            (forall p, q :: 0 <= p < q < |calls| ==> calls[p].mixin < calls[q].mixin)
            && (forall c <- calls :: c.mixin < |ms| && Guard(ms[c.mixin], action))
  {
    var calls := Exec(ms, 0, action, self, args, s).calls;
    var imp := Implementers(ms, 0, action);
    CallsFollowImplementers(ms, 0, action, self, args, s);
    forall p | 0 <= p < |calls|
      ensures calls[p].mixin == imp[p] && imp[p] in imp
    {
      IndicesAt(calls, p);
    }
  }

  /** Every mixin in the trace has `.apply` reached for the dispatched
      property key, with the dispatch's own receiver and exactly the argument
      list it was given. */
  lemma {:induction false} ForwardsReceiverAndArgs<R, A, S, E, V>(ms: seq<MixinModule<R, A, S, E, V>>, i: nat, action: string, self: R, args: seq<A>, s: S)
    requires i <= |ms|
    ensures forall c <- Exec(ms, i, action, self, args, s).calls ::
              c.action == action && c.receiver == self && c.args == args
    decreases |ms| - i
  {
    if i < |ms| {
      if !Guard(ms[i], action) {
        ForwardsReceiverAndArgs(ms, i + 1, action, self, args, s);
      } else {
        match Apply(ms[i].properties[action], self, args, s)
        case Finished(after) =>
          ForwardsReceiverAndArgs(ms, i + 1, action, self, args, after);
        case Raised(_, _) =>
      }
    }
  }

  /** Handlers run one after another on a shared state: the first sees the
      state the dispatch started from, each later one sees exactly what its
      predecessor left, and the dispatch ends as the last mixin in the trace
      ended (or unchanged when the trace is empty). */
  lemma {:induction false} HandlersShareState<R, A, S, E, V>(ms: seq<MixinModule<R, A, S, E, V>>, i: nat, action: string, self: R, args: seq<A>, s: S)
    requires i <= |ms|
    ensures var calls := Exec(ms, i, action, self, args, s).calls;
            (calls != [] ==> calls[0].before == s)
            && (forall k :: 0 <= k < |calls| - 1 ==> Replay(ms, calls[k]) == Finished(calls[k + 1].before))
    ensures var run := Exec(ms, i, action, self, args, s);
            run.outcome == if run.calls == [] then Finished(s) else Replay(ms, run.calls[|run.calls| - 1])
    decreases |ms| - i
  {
    if i < |ms| {
      if !Guard(ms[i], action) {
        HandlersShareState(ms, i + 1, action, self, args, s);
      } else {
        var c := Call(i, action, self, args, s);
        assert Replay(ms, c) == Apply(ms[i].properties[action], self, args, s);
        match Apply(ms[i].properties[action], self, args, s)
        case Finished(after) =>
          HandlersShareState(ms, i + 1, action, self, args, after);
          var rest := Exec(ms, i + 1, action, self, args, after);
          var calls := [c] + rest.calls;
          forall k | 0 <= k < |calls| - 1
            ensures Replay(ms, calls[k]) == Finished(calls[k + 1].before)
          {
            if k > 0 {
              assert calls[k] == rest.calls[k - 1];
              assert calls[k + 1] == rest.calls[k];
            }
          }
        case Raised(_, _) =>
      }
    }
  }

  /** A throw ends the dispatch at once: the fault that escapes, and the state
      it leaves, are exactly those of the last mixin in the trace (the last to
      pass the guard), and no implementer after that mixin is reached. */
  lemma FailFast<R, A, S, E, V>(ms: seq<MixinModule<R, A, S, E, V>>, action: string, self: R, args: seq<A>, s: S)
    ensures var run := Exec(ms, 0, action, self, args, s);
            run.outcome.Raised? ==>
              run.calls != []
              && Replay(ms, run.calls[|run.calls| - 1]) == run.outcome
              && forall k :: k in Implementers(ms, 0, action) && k > run.calls[|run.calls| - 1].mixin ==> k !in Indices(run.calls)
  {
    var run := Exec(ms, 0, action, self, args, s);
    if run.outcome.Raised? {
      CallsFollowImplementers(ms, 0, action, self, args, s);
      HandlersShareState(ms, 0, action, self, args, s);
      var imp := Implementers(ms, 0, action);
      var n := |run.calls|;
      var idx := Indices(run.calls);
      IndicesAt(run.calls, n - 1);
      forall k | k in imp && k > run.calls[n - 1].mixin
        ensures k !in idx
      {
        forall p | 0 <= p < n
          ensures idx[p] != k
        {
          assert idx[p] == imp[p];
        }
      }
    }
  }

  lemma {:induction false} IndicesAt<R, A, S>(calls: seq<Call<R, A, S>>, k: nat)
    requires k < |calls|
    ensures Indices(calls)[k] == calls[k].mixin
  {
    if k > 0 {
      IndicesAt(calls[1..], k - 1);
    }
  }

  /** With no mixin implementing the event, a dispatch invokes nothing and
      changes nothing; and it invokes nothing only in that case. */
  lemma NoImplementersNoEffect<R, A, S, E, V>(ms: seq<MixinModule<R, A, S, E, V>>, action: string, self: R, args: seq<A>, s: S)
    ensures Exec(ms, 0, action, self, args, s).calls == [] <==> Implementers(ms, 0, action) == []
    ensures Implementers(ms, 0, action) == [] ==> Exec(ms, 0, action, self, args, s) == Run(Finished(s), [])
  {
    CallsFollowImplementers(ms, 0, action, self, args, s);
    HandlersShareState(ms, 0, action, self, args, s);
  }

  /** Handler return values are ignored: two mixin lists that pass the guard
      at the same positions, and whose handlers differ only in what they return
      (not in the state they leave or the fault they raise), dispatch
      identically, with the same trace. */
  lemma {:induction false} ReturnValuesIgnored<R, A, S, E, V1, V2>(ms1: seq<MixinModule<R, A, S, E, V1>>, ms2: seq<MixinModule<R, A, S, E, V2>>, i: nat, action: string, self: R, args: seq<A>, s: S)
    requires |ms1| == |ms2| && i <= |ms1|
    requires forall k :: 0 <= k < |ms1| ==> Guard(ms1[k], action) == Guard(ms2[k], action)
    requires forall k, st: S :: 0 <= k < |ms1| && Guard(ms1[k], action) && Guard(ms2[k], action) ==>
               Apply(ms1[k].properties[action], self, args, st) == Apply(ms2[k].properties[action], self, args, st)
    ensures Exec(ms1, i, action, self, args, s) == Exec(ms2, i, action, self, args, s)
    decreases |ms1| - i
  {
    if i < |ms1| {
      if !Guard(ms1[i], action) {
        ReturnValuesIgnored(ms1, ms2, i + 1, action, self, args, s);
      } else {
        var o := Apply(ms1[i].properties[action], self, args, s);
        assert o == Apply(ms2[i].properties[action], self, args, s);
        match o
        case Finished(after) =>
          ReturnValuesIgnored(ms1, ms2, i + 1, action, self, args, after);
        case Raised(_, _) =>
      }
    }
  }

  // ---------------------------------------------------------------------------
  // The module-level mixin list and the factory

  /** The four mixin modules, loaded once when lib/mixins/index.js is loaded.
      Their bodies are not part of this model. */
  datatype Registry<!R, !A, !S, E, V> = Registry(
    meta4: MixinModule<R, A, S, E, V>,
    crypto: MixinModule<R, A, S, E, V>,
    contextCollection: MixinModule<R, A, S, E, V>,
    nestedModels: MixinModule<R, A, S, E, V>)

  /** The object of dispatch methods the factory returns. */
  datatype Dispatcher<!R, !A, !S, E, V> = Dispatcher(mixins: seq<MixinModule<R, A, S, E, V>>)
  {
    method Configure(self: R, args: seq<A>, s: S) returns (out: Outcome<S, E>, ghost calls: seq<Call<R, A, S>>)
      ensures out == Exec(mixins, 0, "configure", self, args, s).outcome
      ensures calls == Exec(mixins, 0, "configure", self, args, s).calls
      ensures forall c <- calls :: c.action == Name(Action.Configure) && c.receiver == self && c.args == args
    {
      out, calls := Dispatch(mixins, "configure", self, args, s);
      ForwardsReceiverAndArgs(mixins, 0, "configure", self, args, s);
    }

    method Endpoint(self: R, args: seq<A>, s: S) returns (out: Outcome<S, E>, ghost calls: seq<Call<R, A, S>>)
      ensures out == Exec(mixins, 0, "endpoint", self, args, s).outcome
      ensures calls == Exec(mixins, 0, "endpoint", self, args, s).calls
      ensures forall c <- calls :: c.action == Name(Action.Endpoint) && c.receiver == self && c.args == args
    {
      out, calls := Dispatch(mixins, "endpoint", self, args, s);
      ForwardsReceiverAndArgs(mixins, 0, "endpoint", self, args, s);
    }

    method BeforeRequest(self: R, args: seq<A>, s: S) returns (out: Outcome<S, E>, ghost calls: seq<Call<R, A, S>>)
      ensures out == Exec(mixins, 0, "beforeRequest", self, args, s).outcome
      ensures calls == Exec(mixins, 0, "beforeRequest", self, args, s).calls
      ensures forall c <- calls :: c.action == Name(Action.BeforeRequest) && c.receiver == self && c.args == args
    {
      out, calls := Dispatch(mixins, "beforeRequest", self, args, s);
      ForwardsReceiverAndArgs(mixins, 0, "beforeRequest", self, args, s);
    }

    method BeforeCreate(self: R, args: seq<A>, s: S) returns (out: Outcome<S, E>, ghost calls: seq<Call<R, A, S>>)
      ensures out == Exec(mixins, 0, "beforeCreate", self, args, s).outcome
      ensures calls == Exec(mixins, 0, "beforeCreate", self, args, s).calls
      ensures forall c <- calls :: c.action == Name(Action.BeforeCreate) && c.receiver == self && c.args == args
    {
      out, calls := Dispatch(mixins, "beforeCreate", self, args, s);
      ForwardsReceiverAndArgs(mixins, 0, "beforeCreate", self, args, s);
    }

    method AfterCreate(self: R, args: seq<A>, s: S) returns (out: Outcome<S, E>, ghost calls: seq<Call<R, A, S>>)
      ensures out == Exec(mixins, 0, "afterCreate", self, args, s).outcome
      ensures calls == Exec(mixins, 0, "afterCreate", self, args, s).calls
      ensures forall c <- calls :: c.action == Name(Action.AfterCreate) && c.receiver == self && c.args == args
    {
      out, calls := Dispatch(mixins, "afterCreate", self, args, s);
      ForwardsReceiverAndArgs(mixins, 0, "afterCreate", self, args, s);
    }

    method BeforeUpdate(self: R, args: seq<A>, s: S) returns (out: Outcome<S, E>, ghost calls: seq<Call<R, A, S>>)
      ensures out == Exec(mixins, 0, "beforeUpdate", self, args, s).outcome
      ensures calls == Exec(mixins, 0, "beforeUpdate", self, args, s).calls
      ensures forall c <- calls :: c.action == Name(Action.BeforeUpdate) && c.receiver == self && c.args == args
    {
      out, calls := Dispatch(mixins, "beforeUpdate", self, args, s);
      ForwardsReceiverAndArgs(mixins, 0, "beforeUpdate", self, args, s);
    }

    method AfterUpdate(self: R, args: seq<A>, s: S) returns (out: Outcome<S, E>, ghost calls: seq<Call<R, A, S>>)
      ensures out == Exec(mixins, 0, "afterUpdate", self, args, s).outcome
      ensures calls == Exec(mixins, 0, "afterUpdate", self, args, s).calls
      ensures forall c <- calls :: c.action == Name(Action.AfterUpdate) && c.receiver == self && c.args == args
    {
      out, calls := Dispatch(mixins, "afterUpdate", self, args, s);
      ForwardsReceiverAndArgs(mixins, 0, "afterUpdate", self, args, s);
    }

    method BeforeRead(self: R, args: seq<A>, s: S) returns (out: Outcome<S, E>, ghost calls: seq<Call<R, A, S>>)
      ensures out == Exec(mixins, 0, "beforeRead", self, args, s).outcome
      ensures calls == Exec(mixins, 0, "beforeRead", self, args, s).calls
      ensures forall c <- calls :: c.action == Name(Action.BeforeRead) && c.receiver == self && c.args == args
    {
      out, calls := Dispatch(mixins, "beforeRead", self, args, s);
      ForwardsReceiverAndArgs(mixins, 0, "beforeRead", self, args, s);
    }

    method AfterRead(self: R, args: seq<A>, s: S) returns (out: Outcome<S, E>, ghost calls: seq<Call<R, A, S>>)
      ensures out == Exec(mixins, 0, "afterRead", self, args, s).outcome
      ensures calls == Exec(mixins, 0, "afterRead", self, args, s).calls
      ensures forall c <- calls :: c.action == Name(Action.AfterRead) && c.receiver == self && c.args == args
    {
      out, calls := Dispatch(mixins, "afterRead", self, args, s);
      ForwardsReceiverAndArgs(mixins, 0, "afterRead", self, args, s);
    }

    method BeforeDelete(self: R, args: seq<A>, s: S) returns (out: Outcome<S, E>, ghost calls: seq<Call<R, A, S>>)
      ensures out == Exec(mixins, 0, "beforeDelete", self, args, s).outcome
      ensures calls == Exec(mixins, 0, "beforeDelete", self, args, s).calls
      ensures forall c <- calls :: c.action == Name(Action.BeforeDelete) && c.receiver == self && c.args == args
    {
      out, calls := Dispatch(mixins, "beforeDelete", self, args, s);
      ForwardsReceiverAndArgs(mixins, 0, "beforeDelete", self, args, s);
    }
  }

  /** The exported factory. It ignores whatever it is given (`new
      Mixins(options)`): the dispatcher always walks the four loaded mixins in
      their load order. */
  function Create<R, A, S, E, V, O>(loaded: Registry<R, A, S, E, V>, options: O): (d: Dispatcher<R, A, S, E, V>)
    ensures |d.mixins| == 4
    ensures d.mixins[0] == loaded.meta4 && d.mixins[1] == loaded.crypto
    ensures d.mixins[2] == loaded.contextCollection && d.mixins[3] == loaded.nestedModels
  {
    Dispatcher([loaded.meta4, loaded.crypto, loaded.contextCollection, loaded.nestedModels])
  }

  /** When both Crypto and NestedModels handle an event and the dispatch
      completes, Crypto's handler runs first, ends normally, and the next
      handler starts from exactly the state Crypto's left; NestedModels' handler
      runs later. This holds whatever the options given to the factory. */
  lemma CryptoBeforeNestedModels<R, A, S, E, V, O>(loaded: Registry<R, A, S, E, V>, options: O, action: string, self: R, args: seq<A>, s: S)
    requires Guard(loaded.crypto, action) && Guard(loaded.nestedModels, action)
    ensures var ms := Create(loaded, options).mixins;
            var run := Exec(ms, 0, action, self, args, s);
            run.outcome.Finished? ==>
              exists p, q :: 0 <= p < q < |run.calls|
                && run.calls[p].mixin == 1 && run.calls[q].mixin == 3
                && Replay(ms, run.calls[p]) == Finished(run.calls[p + 1].before)
  {
    var ms := Create(loaded, options).mixins;
    var run := Exec(ms, 0, action, self, args, s);
    if run.outcome.Finished? {
      CallsFollowImplementers(ms, 0, action, self, args, s);
      HandlersShareState(ms, 0, action, self, args, s);
      var imp := Implementers(ms, 0, action);
      assert 1 in imp && 3 in imp;
      var p :| 0 <= p < |imp| && imp[p] == 1;
      var q :| 0 <= q < |imp| && imp[q] == 3;
      assert p < q;
      IndicesAt(run.calls, p);
      IndicesAt(run.calls, q);
      assert Replay(ms, run.calls[p]) == Finished(run.calls[p + 1].before);
    }
  }
}
