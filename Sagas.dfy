/**
 * The event-sourced saga contract (`IEventSourcedSaga`): a state that changes only through
 * `Transition`, a version counting applied events, and the list of events raised since the
 * last commit.
 */
module Sagas {
  import opened Wrappers
  import opened Exceptions

  /**
   * What the repository knows of a saga class `TSaga`: its name, the state `blank` of `new TSaga()`,
   * its `Transition` and its `CorrelationId` property.
   */
  datatype SagaType<!S, -E> = SagaType(name: TypeName, blank: S, transition: (S, E) -> S, correlationId: S -> Guid)

  /** The state reached from `s` by applying `events` in order. */
  function Replay<S, E>(transition: (S, E) -> S, s: S, events: seq<E>): S
    decreases |events|
  {
    if events == [] then s
    else transition(Replay(transition, s, events[..|events| - 1]), events[|events| - 1])
  }

  /** Replaying one more event is one more transition. */
  lemma ReplayStep<S, E>(transition: (S, E) -> S, s: S, events: seq<E>, i: nat)
    requires i < |events|
    ensures Replay(transition, s, events[..i + 1]) == transition(Replay(transition, s, events[..i]), events[i])
  {
    assert events[..i + 1][..i] == events[..i];
  }

  /** Replaying a concatenation is replaying the second part from where the first part ends. */
  lemma {:induction false} ReplayAppend<S, E>(transition: (S, E) -> S, s: S, a: seq<E>, b: seq<E>)
    ensures Replay(transition, s, a + b) == Replay(transition, Replay(transition, s, a), b)
    decreases |b|
  {
    if b == [] {
      assert a + b == a;
    } else {
      assert (a + b)[..|a + b| - 1] == a + b[..|b| - 1];
      ReplayAppend(transition, s, a, b[..|b| - 1]);
    }
  }

  /**
   * A handler callback chosen by the handler selector: it either raises events on the saga
   * (each one is applied and recorded for the next commit) or throws.
   */
  datatype Callback<E> = Raise(events: seq<E>) | Fail(reason: string)

  /** The reason of the first callback that throws, if any does. */
  function FirstFailure<E>(callbacks: seq<Callback<E>>): Option<string>
  {
    if callbacks == [] then None
    else match callbacks[0]
      case Fail(reason) => Some(reason)
      case Raise(_) => FirstFailure(callbacks[1..])
  }

  /** `FirstFailure` finds a throwing callback exactly when there is one, and then the first of them. */
  lemma {:induction false} FirstFailureIsFirst<E>(callbacks: seq<Callback<E>>)
    ensures FirstFailure(callbacks).None? <==> forall i :: 0 <= i < |callbacks| ==> callbacks[i].Raise?
    ensures forall i :: 0 <= i < |callbacks| && callbacks[i].Fail? && (forall j :: 0 <= j < i ==> callbacks[j].Raise?)
                        ==> FirstFailure(callbacks) == Some(callbacks[i].reason)
    decreases |callbacks|
  {
    if callbacks != [] {
      FirstFailureIsFirst(callbacks[1..]);
      assert forall i :: 1 <= i < |callbacks| ==> callbacks[i] == callbacks[1..][i - 1];
    }
  }

  /** The events raised, in order, by the callbacks that run before the first one that throws. */
  function Emitted<E>(callbacks: seq<Callback<E>>): seq<E>
  {
    if callbacks == [] then []
    else match callbacks[0]
      case Fail(_) => []
      case Raise(events) => events + Emitted(callbacks[1..])
  }

  /** When no callback throws, every callback's events are emitted, each callback once and in order. */
  lemma {:induction false} EmittedAll<E>(a: seq<Callback<E>>, b: seq<Callback<E>>, c: Callback<E>)
    requires FirstFailure(a).None? && c.Raise?
    ensures Emitted(a + [c] + b) == Emitted(a) + c.events + Emitted(b)
    decreases |a|
  {
    if a == [] {
      assert a + [c] + b == [c] + b;
      assert ([c] + b)[1..] == b;
    } else {
      assert (a + [c] + b)[0] == a[0];
      assert (a + [c] + b)[1..] == a[1..] + [c] + b;
      EmittedAll(a[1..], b, c);
    }
  }

  /** A callback that throws stops the callbacks after it from running. */
  lemma {:induction false} EmittedStopsAtFailure<E>(a: seq<Callback<E>>, b: seq<Callback<E>>, c: Callback<E>)
    requires FirstFailure(a).None? && c.Fail?
    ensures Emitted(a + [c] + b) == Emitted(a)
    ensures FirstFailure(a + [c] + b) == Some(c.reason)
    decreases |a|
  {
    if a == [] {
      assert a + [c] + b == [c] + b;
    } else {
      assert (a + [c] + b)[0] == a[0];
      assert (a + [c] + b)[1..] == a[1..] + [c] + b;
      EmittedStopsAtFailure(a[1..], b, c);
    }
  }

  /** One more callback: a raising one adds its events; a throwing one ends the run with its reason. */
  lemma EmittedStep<E>(callbacks: seq<Callback<E>>, i: nat)
    requires i < |callbacks| && FirstFailure(callbacks[..i]).None?
    ensures callbacks[i].Raise? ==> && Emitted(callbacks[..i + 1]) == Emitted(callbacks[..i]) + callbacks[i].events
                                    && FirstFailure(callbacks[..i + 1]).None?
    ensures callbacks[i].Fail? ==> && Emitted(callbacks) == Emitted(callbacks[..i])
                                   && FirstFailure(callbacks) == Some(callbacks[i].reason)
  {
    assert callbacks[..i] + [callbacks[i]] + callbacks[i + 1..] == callbacks;
    if callbacks[i].Raise? {
      EmittedAll(callbacks[..i], [], callbacks[i]);
      assert callbacks[..i] + [callbacks[i]] + [] == callbacks[..i + 1];
      FirstFailureIsFirst(callbacks[..i]);
      FirstFailureIsFirst(callbacks[..i + 1]);
    } else {
      EmittedStopsAtFailure(callbacks[..i], callbacks[i + 1..], callbacks[i]);
    }
  }

  /** The state after one more raising callback is its events replayed on the state before it. */
  lemma ReplayCallbackStep<S, E>(transition: (S, E) -> S, s: S, callbacks: seq<Callback<E>>, i: nat)
    requires i < |callbacks| && FirstFailure(callbacks[..i]).None? && callbacks[i].Raise?
    ensures Emitted(callbacks[..i + 1]) == Emitted(callbacks[..i]) + callbacks[i].events
    ensures FirstFailure(callbacks[..i + 1]).None?
    ensures Replay(transition, s, Emitted(callbacks[..i + 1]))
         == Replay(transition, Replay(transition, s, Emitted(callbacks[..i])), callbacks[i].events)
  {
    EmittedStep(callbacks, i);
    ReplayAppend(transition, s, Emitted(callbacks[..i]), callbacks[i].events);
  }

  lemma AppendAssociative<T>(a: seq<T>, b: seq<T>, c: seq<T>)
    ensures (a + b) + c == a + (b + c)
  {
  }

  /** A saga instance: its replayed state, its version and its uncommitted events. */
  class Saga<S, E> {
    const kind: SagaType<S, E>
    var state: S
    var version: nat
    var uncommitted: seq<E>

    /** A saga object holding the given state, version and uncommitted events (`new TSaga()` is the blank state, version 0, no events). */
    constructor (kind: SagaType<S, E>, initial: S, version: nat, uncommitted: seq<E>)
      ensures this.kind == kind && state == initial && this.version == version && this.uncommitted == uncommitted
    {
      this.kind := kind;
      state := initial;
      this.version := version;
      this.uncommitted := uncommitted;
    }

    /** `Transition`: apply one event; nothing is recorded for commit (this is what replay uses). */
    method Transition(e: E)
      modifies this
      ensures state == kind.transition(old(state), e) && version == old(version) + 1
      ensures uncommitted == old(uncommitted)
    {
      state := kind.transition(state, e);
      version := version + 1;
    }

    /** What a `Raise` callback does: apply each event in turn and record it as uncommitted. */
    method RaiseEvents(events: seq<E>)
      modifies this
      ensures state == Replay(kind.transition, old(state), events)
      ensures version == old(version) + |events|
      ensures uncommitted == old(uncommitted) + events
    {
      var i := 0;
      while i < |events|
        invariant 0 <= i <= |events|
        invariant state == Replay(kind.transition, old(state), events[..i])
        invariant version == old(version) + i
        invariant uncommitted == old(uncommitted) + events[..i]
      {
        ReplayStep(kind.transition, old(state), events, i);
        assert events[..i + 1] == events[..i] + [events[i]];
        Transition(events[i]);
        uncommitted := uncommitted + [events[i]];
        i := i + 1;
      }
      assert events[..i] == events;
    }

    /** `ClearUncommittedEvents`: forget the recorded events; the state is untouched. */
    method ClearUncommittedEvents()
      modifies this
      ensures uncommitted == [] && state == old(state) && version == old(version)
    {
      uncommitted := [];
    }
  }
}
