/**
 * `EventStoreRepository<TSaga>`: the saga repository backed by an event store. For one inbound
 * message and one saga id it rebuilds the saga from its stream, consults the saga policy, and
 * hands back zero or one deferred action that runs the selected handlers and commits the
 * events they raised.
 */
module Repository {
  import opened Wrappers
  import opened Exceptions
  import opened Sagas
  import opened EventStore

  /** The parts of `IConsumeContext<TMessage>` the repository reads; absent ids are C#'s null strings. */
  datatype ConsumeContext<M> = ConsumeContext(
    message: M,
    messageType: TypeName,
    messageId: Option<string>,
    requestId: Option<string>,
    correlationId: Option<string>,
    conversationId: Option<string>)

  /** A chain of `??`: the first present candidate. */
  function Coalesce(candidates: seq<Option<string>>): (r: Option<string>)
    ensures r.None? <==> forall i :: 0 <= i < |candidates| ==> candidates[i].None?
    ensures forall i :: 0 <= i < |candidates| && candidates[i].Some? && (forall j :: 0 <= j < i ==> candidates[j].None?)
                        ==> r == candidates[i]
  {
    if candidates == [] then None
    else if candidates[0].Some? then candidates[0]
    else Coalesce(candidates[1..])
  }

  /** `Guid.TryParse` of one value, falling back to a freshly generated id (`CombGuid.Generate()`). */
  function ParseOrGenerate(parse: string -> Option<Guid>, text: Option<string>, generated: Guid): (r: Guid)
    ensures text.Some? && parse(text.value).Some? ==> r == parse(text.value).value
    ensures text.None? || parse(text.value).None? ==> r == generated
  {
    match text
    case None => generated
    case Some(s) => match parse(s) case Some(g) => g case None => generated
  }

  /**
   * `GetCommitId`: the first present of MessageId, RequestId, CorrelationId and ConversationId,
   * parsed; if that one value does not parse, the generated id (the later fields are not tried).
   */
  function GetCommitId<M>(cc: ConsumeContext<M>, parse: string -> Option<Guid>, generated: Guid): (r: Guid)
    ensures cc.messageId.Some? ==> r == ParseOrGenerate(parse, cc.messageId, generated)
    ensures cc.messageId.None? && cc.requestId.Some? ==> r == ParseOrGenerate(parse, cc.requestId, generated)
    ensures cc.messageId.None? && cc.requestId.None? && cc.correlationId.Some? ==>
              r == ParseOrGenerate(parse, cc.correlationId, generated)
    ensures cc.messageId.None? && cc.requestId.None? && cc.correlationId.None? ==>
              r == ParseOrGenerate(parse, cc.conversationId, generated)
    ensures cc.messageId.Some? && parse(cc.messageId.value).None? ==> r == generated
  {
    var candidates := [cc.messageId, cc.requestId, cc.correlationId, cc.conversationId];
    assert candidates[0] == cc.messageId && candidates[1] == cc.requestId;
    assert candidates[2] == cc.correlationId && candidates[3] == cc.conversationId;
    ParseOrGenerate(parse, Coalesce(candidates), generated)
  }

  /** `new Guid(x.RequestId)`: the create branch's commit id, or the exception the constructor throws. */
  function RequestCommitId<M>(cc: ConsumeContext<M>, parse: string -> Option<Guid>): (r: Result<Guid, Exception>)
    ensures cc.requestId.None? ==> r == Failure(ArgumentNullException("g"))
    ensures cc.requestId.Some? && parse(cc.requestId.value).None? ==> r == Failure(FormatException(cc.requestId.value))
    ensures r.Success? <==> cc.requestId.Some? && parse(cc.requestId.value).Some?
    ensures r.Success? ==> parse(cc.requestId.value) == Some(r.value)
  {
    match cc.requestId
    case None => Failure(ArgumentNullException("g"))
    case Some(s) => match parse(s) case Some(g) => Success(g) case None => Failure(FormatException(s))
  }

  /** The create branch's id ignores MessageId and never falls back to a generated id. */
  lemma CreateCommitIdIgnoresMessageId<M>(cc: ConsumeContext<M>, parse: string -> Option<Guid>, messageId: Option<string>)
    ensures RequestCommitId(cc.(messageId := messageId), parse) == RequestCommitId(cc, parse)
  {
  }

  /**
   * The two branches commit one message under the same id only when it has no MessageId (or that
   * MessageId parses to the same Guid): a message whose MessageId and RequestId parse to different
   * Guids is committed under different ids by the create and the existing branch.
   */
  lemma CommitIdsOfBranches<M>(cc: ConsumeContext<M>, parse: string -> Option<Guid>, generated: Guid)
    requires RequestCommitId(cc, parse).Success?
    ensures cc.messageId.None? ==> GetCommitId(cc, parse, generated) == RequestCommitId(cc, parse).value
    ensures cc.messageId.Some? && parse(cc.messageId.value).Some? ==>
              (GetCommitId(cc, parse, generated) == RequestCommitId(cc, parse).value
               <==> parse(cc.messageId.value) == parse(cc.requestId.value))
  {
    assert cc.requestId.Some?;
  }

  /**
   * The saga object `CreateInstance` hands back, as its state, its `Version` and the events it
   * already holds as uncommitted (a constructor may raise events of its own).
   */
  datatype Created<S, E> = Created(state: S, version: nat, uncommitted: seq<E>)

  /** `ISagaPolicy<TSaga, TMessage>`: the three predicates and `CreateInstance`. */
  datatype SagaPolicy<!S, !E, !M> = SagaPolicy(
    canCreateInstance: ConsumeContext<M> -> bool,
    canUseExistingInstance: ConsumeContext<M> -> bool,
    canRemoveInstance: S -> bool,
    createInstance: (ConsumeContext<M>, Guid) -> Created<S, E>)

  /** `InstanceHandlerSelector<TSaga, TMessage>`: the callbacks to run for an instance and a message. */
  type HandlerSelector<!S, E, !M> = (S, ConsumeContext<M>) -> seq<Callback<E>>

  /** The deferred actions `GetSaga` can yield: the create branch's and the existing-instance branch's. */
  datatype ActionTag = CreateNew | UseExisting

  /** What running a deferred action ends in. */
  datatype ActionResult = Completed | Raised(exception: Exception)

  /** The branch decision of `GetSaga`: which deferred actions it yields. */
  function Decide<S, E, M>(instancePresent: bool, policy: SagaPolicy<S, E, M>, context: ConsumeContext<M>): (r: seq<ActionTag>)
    ensures |r| <= 1
    ensures !instancePresent ==> (r == [CreateNew] <==> policy.canCreateInstance(context))
    ensures !instancePresent ==> (r == [] <==> !policy.canCreateInstance(context))
    ensures instancePresent ==> (r == [UseExisting] <==> policy.canUseExistingInstance(context))
    ensures instancePresent ==> (r == [] <==> !policy.canUseExistingInstance(context))
  {
    if !instancePresent then
      if policy.canCreateInstance(context) then [CreateNew] else []
    else
      if policy.canUseExistingInstance(context) then [UseExisting] else []
  }

  /**
   * The `SagaException` a deferred action throws for any exception raised inside it: the branch's
   * message, the saga and message types, the saga id (not the commit id) and the cause.
   */
  function ActionError(tag: ActionTag, sagaType: TypeName, messageType: TypeName, sagaId: Guid, cause: Exception): (r: Exception)
    ensures r.SagaException? && r.id == sagaId && r.inner == cause
    ensures r.sagaType == sagaType && r.messageType == messageType
    ensures tag == CreateNew ==> r.message == "Create Saga Instance Exception"
    ensures tag == UseExisting ==> r.message == "Existing Saga Instance Exception"
  {
    var message := if tag == CreateNew then "Create Saga Instance Exception" else "Existing Saga Instance Exception";
    SagaException(message, sagaType, messageType, sagaId, cause)
  }

  /** A deferred action's result once saving has ended in `err`. */
  function Conclude(tag: ActionTag, sagaType: TypeName, messageType: TypeName, sagaId: Guid, err: Option<Exception>): (r: ActionResult)
    ensures r == Completed <==> err.None?
    ensures err.Some? ==> r == Raised(ActionError(tag, sagaType, messageType, sagaId, err.value))
  {
    match err
    case None => Completed
    case Some(e) => Raised(ActionError(tag, sagaType, messageType, sagaId, e))
  }

  /** `Persist`'s classification of a commit outcome: the exception that leaves it, if any. */
  function PersistError(o: CommitOutcome, sagaType: TypeName, messageType: TypeName, commitId: Guid): (r: Option<Exception>)
    ensures r.None? <==> o == Committed || o == DuplicateCommit
    ensures o == ConcurrencyConflict ==> r == Some(ConcurrencyException)
    ensures o.StorageFailure? ==> r.Some? && r.value.SagaException? && r.value.id == commitId
                                  && r.value.inner == StorageException(o.message)
                                  && r.value.sagaType == sagaType && r.value.messageType == messageType
  {
    match o
    case Committed => None
    case DuplicateCommit => None
    case ConcurrencyConflict => Some(ConcurrencyException)
    case StorageFailure(message) => Some(SagaException(message, sagaType, messageType, commitId, StorageException(message)))
  }

  /**
   * Rehydration agrees with the in-memory instance: a saga rebuilt from `history` that then applies
   * `events` is in the state a later rebuild reaches once `events` are committed after `history`.
   */
  lemma {:induction false} CommittedStateReplays<S, E>(kind: SagaType<S, E>, history: seq<EventMessage<E>>, events: seq<E>)
    ensures Replay(kind.transition, Replay(kind.transition, kind.blank, Bodies(history)), events)
         == Replay(kind.transition, kind.blank, Bodies(history + Wrap(events)))
  {
    BodiesAppend(history, Wrap(events));
    BodiesWrap(events);
    ReplayAppend(kind.transition, kind.blank, Bodies(history), events);
  }

  /**
   * The state a later rebuild reaches for a saga created by `CreateInstance` that ran `events`
   * and was committed to its new, empty stream: `new TSaga()` replayed over every event the
   * saga held uncommitted when it was saved.
   */
  function RebuiltAfterCreate<S, E>(kind: SagaType<S, E>, created: Created<S, E>, events: seq<E>): S
  {
    Replay(kind.transition, kind.blank, Bodies([] + Wrap(created.uncommitted + events)))
  }

  /**
   * A created saga is rebuilt, for every run of events, in the state the create action left it
   * in exactly when `CreateInstance`'s state is what `new TSaga()` reaches by its own uncommitted
   * events. Anything else `CreateInstance` sets (a CorrelationId, say) is lost on the next load.
   */
  lemma CreatedStateReplays<S, E>(kind: SagaType<S, E>, created: Created<S, E>)
    ensures (forall events :: RebuiltAfterCreate(kind, created, events) == Replay(kind.transition, created.state, events))
        <==> created.state == Replay(kind.transition, kind.blank, created.uncommitted)
  {
    if created.state == Replay(kind.transition, kind.blank, created.uncommitted) {
      forall events
        ensures RebuiltAfterCreate(kind, created, events) == Replay(kind.transition, created.state, events)
      {
        CommittedStateReplays(kind, Wrap(created.uncommitted), events);
        BodiesWrap(created.uncommitted);
        WrapAppend(created.uncommitted, events);
        assert [] + Wrap(created.uncommitted + events) == Wrap(created.uncommitted) + Wrap(events);
      }
    } else {
      BodiesWrap(created.uncommitted);
      assert [] + Wrap(created.uncommitted + []) == Wrap(created.uncommitted);
      assert RebuiltAfterCreate(kind, created, []) != Replay(kind.transition, created.state, []);
    }
  }

  /** Copying one more header onto the stream. */
  lemma HeaderStep(base: map<string, string>, headers: map<string, string>, pending: set<string>, key: string)
    requires key in pending && pending <= headers.Keys
    ensures base + (headers - (pending - {key})) == (base + (headers - pending))[key := headers[key]]
  {
  }

  /** LINQ's `Select` over a sequence of sagas. */
  function MapSagas<S, R>(f: S -> R, sagas: seq<S>): (r: seq<R>)
    ensures |r| == |sagas|
    ensures forall i :: 0 <= i < |sagas| ==> r[i] == f(sagas[i])
  {
    if sagas == [] then [] else [f(sagas[0])] + MapSagas(f, sagas[1..])
  }

  const EnumerationUnsupported := "the event store doesn't support enumerating sagas"

  class EventStoreRepository<S, E> {
    const store: EventStore<E>
    const kind: SagaType<S, E>

    constructor (store: EventStore<E>, kind: SagaType<S, E>)
      ensures this.store == store && this.kind == kind
    {
      this.store := store;
      this.kind := kind;
    }

    /**
     * `TryGetSaga`: always a stream for `sagaId`; an instance rebuilt from its committed events when
     * the stream exists, and no instance (with a new, empty stream) when it does not.
     */
    method TryGetSaga(sagaId: Guid) returns (stream: EventStream<E>, instance: Saga?<S, E>)
      ensures fresh(stream) && stream.store == store && stream.streamId == sagaId
      ensures stream.committed == History(store.streams, sagaId) && stream.commitSequence == |Applied(store.streams, sagaId)|
      ensures stream.uncommitted == [] && stream.headers == map[]
      ensures (instance == null) <==> sagaId !in store.streams
      ensures instance != null ==> && fresh(instance) && instance.kind == kind
                                   && instance.state == Replay(kind.transition, kind.blank, Bodies(stream.committed))
                                   && instance.version == |stream.committed| && instance.uncommitted == []
    {
      var found := store.OpenStream(sagaId);
      if found.Some? {
        stream := found.value;
        var saga := new Saga(kind, kind.blank, 0, []);
        var events := stream.committed;
        var i := 0;
        while i < |events|
          invariant 0 <= i <= |events|
          invariant saga.state == Replay(kind.transition, kind.blank, Bodies(events)[..i])
          invariant saga.version == i && saga.uncommitted == []
          modifies saga
        {
          ReplayStep(kind.transition, kind.blank, Bodies(events), i);
          saga.Transition(events[i].body);
          i := i + 1;
        }
        assert Bodies(events)[..i] == Bodies(events);
        instance := saga;
      } else {
        stream := store.CreateStream(sagaId);
        instance := null;
      }
    }

    /**
     * `GetSaga`, enumerated: the stream and instance the deferred action captures, and the actions
     * yielded — none when the policy refuses, otherwise exactly one. Nothing is committed.
     */
    method GetSaga<M>(context: ConsumeContext<M>, sagaId: Guid, policy: SagaPolicy<S, E, M>)
      returns (actions: seq<ActionTag>, stream: EventStream<E>, instance: Saga?<S, E>)
      ensures actions == Decide(instance != null, policy, context)
      ensures store.streams == old(store.streams)
      ensures (instance == null) <==> sagaId !in store.streams
      ensures fresh(stream) && stream.store == store && stream.streamId == sagaId
      ensures stream.committed == History(store.streams, sagaId) && stream.commitSequence == |Applied(store.streams, sagaId)|
      ensures stream.uncommitted == [] && stream.headers == map[]
      ensures instance != null ==> && fresh(instance) && instance.kind == kind
                                   && instance.state == Replay(kind.transition, kind.blank, Bodies(stream.committed))
                                   && instance.version == |stream.committed| && instance.uncommitted == []
    {
      stream, instance := TryGetSaga(sagaId);
      actions := Decide(instance != null, policy, context);
    }

    /** The loop of both actions that invokes, in order, each callback the handler selector returns for the instance and the message. */
    method InvokeHandlers(instance: Saga<S, E>, callbacks: seq<Callback<E>>) returns (failure: Option<string>)
      modifies instance
      ensures failure == FirstFailure(callbacks)
      ensures instance.state == Replay(instance.kind.transition, old(instance.state), Emitted(callbacks))
      ensures instance.version == old(instance.version) + |Emitted(callbacks)|
      ensures instance.uncommitted == old(instance.uncommitted) + Emitted(callbacks)
    {
      ghost var done: seq<E> := [];
      ghost var u0 := instance.uncommitted;
      ghost var t := instance.kind.transition;
      ghost var s0, v0 := instance.state, instance.version;
      var i := 0;
      while i < |callbacks| && callbacks[i].Raise?
        invariant 0 <= i <= |callbacks|
        invariant FirstFailure(callbacks[..i]).None? && done == Emitted(callbacks[..i])
        invariant instance.state == Replay(t, s0, done)
        invariant instance.version == v0 + |done|
        invariant instance.uncommitted == u0 + done
      {
        ReplayCallbackStep(t, s0, callbacks, i);
        AppendAssociative(u0, done, callbacks[i].events);
        instance.RaiseEvents(callbacks[i].events);
        done := done + callbacks[i].events;
        i := i + 1;
      }
      if i < |callbacks| {
        EmittedStep(callbacks, i);
        failure := Some(callbacks[i].reason);
      } else {
        assert callbacks[..i] == callbacks;
        failure := None;
      }
    }

    /** `PrepareStream`: copy the headers onto the stream, then stage each uncommitted event as an event message. */
    method PrepareStream(saga: Saga<S, E>, headers: map<string, string>, stream: EventStream<E>)
      modifies stream
      ensures stream.headers == old(stream.headers) + headers
      ensures stream.uncommitted == old(stream.uncommitted) + Wrap(saga.uncommitted)
      ensures stream.committed == old(stream.committed) && stream.commitSequence == old(stream.commitSequence)
    {
      StageHeaders(headers, stream);
      StageEvents(saga.uncommitted, stream);
    }

    /** `PrepareStream`'s first loop: each given header is written into the stream's `UncommittedHeaders`. */
    static method StageHeaders(headers: map<string, string>, stream: EventStream<E>)
      modifies stream
      ensures stream.headers == old(stream.headers) + headers
      ensures stream.uncommitted == old(stream.uncommitted)
      ensures stream.committed == old(stream.committed) && stream.commitSequence == old(stream.commitSequence)
    {
      var pending := headers.Keys;
      while pending != {}
        invariant pending <= headers.Keys
        invariant stream.headers == old(stream.headers) + (headers - pending)
        invariant stream.uncommitted == old(stream.uncommitted)
        invariant stream.committed == old(stream.committed) && stream.commitSequence == old(stream.commitSequence)
        decreases |pending|
      {
        var key :| key in pending;
        HeaderStep(old(stream.headers), headers, pending, key);
        stream.SetHeader(key, headers[key]);
        pending := pending - {key};
      }
      assert headers - {} == headers;
    }

    /** `PrepareStream`'s second step: each uncommitted event, in order, is wrapped as an `EventMessage` and passed to `Add`. */
    static method StageEvents(events: seq<E>, stream: EventStream<E>)
      modifies stream
      ensures stream.uncommitted == old(stream.uncommitted) + Wrap(events)
      ensures stream.headers == old(stream.headers)
      ensures stream.committed == old(stream.committed) && stream.commitSequence == old(stream.commitSequence)
    {
      var i := 0;
      while i < |events|
        invariant 0 <= i <= |events|
        invariant stream.uncommitted == old(stream.uncommitted) + Wrap(events[..i])
        invariant stream.headers == old(stream.headers)
        invariant stream.committed == old(stream.committed) && stream.commitSequence == old(stream.commitSequence)
      {
        WrapStep(events, i);
        AppendAssociative(old(stream.uncommitted), Wrap(events[..i]), [EventMessage(events[i])]);
        stream.Add(EventMessage(events[i]));
        i := i + 1;
      }
      assert events[..i] == events;
    }

    /**
     * `Persist`: commit under `commitId`. A duplicate commit is swallowed and the staged changes are
     * dropped; a storage failure becomes a `SagaException` carrying the commit id; a concurrency
     * conflict is not caught.
     */
    static method Persist(stream: EventStream<E>, commitId: Guid, sagaType: TypeName, messageType: TypeName,
                          fault: Option<string>) returns (err: Option<Exception>)
      modifies stream, stream.store
      ensures var o := CommitStatus(old(stream.store.streams), stream.streamId, old(stream.commitSequence), commitId, fault);
              && err == PersistError(o, sagaType, messageType, commitId)
              && stream.store.streams == AfterCommit(old(stream.store.streams), stream.streamId, old(stream.commitSequence),
                                                     commitId, old(stream.uncommitted), fault)
              && stream.committed == (if o == Committed then old(stream.committed) + old(stream.uncommitted) else old(stream.committed))
              && stream.commitSequence == (if o == Committed then old(stream.commitSequence) + 1 else old(stream.commitSequence))
              && stream.uncommitted == (if err.None? then [] else old(stream.uncommitted))
              && stream.headers == (if err.None? then map[] else old(stream.headers))
    {
      var o := stream.CommitChanges(commitId, fault);
      if o == DuplicateCommit {
        stream.ClearChanges();
      }
      err := PersistError(o, sagaType, messageType, commitId);
    }

    /**
     * `Save`: stage the saga's uncommitted events on the stream, persist them under `commitId`, and
     * then clear the saga's uncommitted events; the saga's state and the committed history it was
     * rebuilt from are not touched.
     */
    method Save(instance: Saga<S, E>, stream: EventStream<E>, commitId: Guid, messageType: TypeName, fault: Option<string>)
      returns (err: Option<Exception>)
      requires stream.store == store
      modifies instance, stream, store
      ensures var staged := old(stream.uncommitted) + Wrap(old(instance.uncommitted));
              var o := CommitStatus(old(store.streams), stream.streamId, old(stream.commitSequence), commitId, fault);
              && err == PersistError(o, kind.name, messageType, commitId)
              && store.streams == AfterCommit(old(store.streams), stream.streamId, old(stream.commitSequence), commitId, staged, fault)
              && stream.committed == (if o == Committed then old(stream.committed) + staged else old(stream.committed))
              && stream.commitSequence == (if o == Committed then old(stream.commitSequence) + 1 else old(stream.commitSequence))
              && stream.uncommitted == (if err.None? then [] else staged)
              && stream.headers == (if err.None? then map[] else old(stream.headers))
      ensures instance.uncommitted == (if err.None? then [] else old(instance.uncommitted))
      ensures instance.state == old(instance.state) && instance.version == old(instance.version)
    {
      PrepareStream(instance, map[], stream);
      assert stream.headers == old(stream.headers);
      err := Persist(stream, commitId, kind.name, messageType, fault);
      if err.None? {
        instance.ClearUncommittedEvents();
      }
    }

    /**
     * The create branch's deferred action: ask the policy for the instance, run the selected
     * handlers on it, and unless the policy now removes the instance, save under the request id.
     * What is saved is every event the instance holds: those `CreateInstance` gave it, then those
     * the handlers raised.
     */
    method RunCreate<M>(x: ConsumeContext<M>, sagaId: Guid, stream: EventStream<E>, selector: HandlerSelector<S, E, M>,
                        policy: SagaPolicy<S, E, M>, parse: string -> Option<Guid>, fault: Option<string>)
      returns (result: ActionResult, instance: Saga<S, E>)
      requires stream.store == store
      modifies stream, store
      ensures fresh(instance) && instance.kind == kind
      ensures var created := policy.createInstance(x, sagaId);
              var events := Emitted(selector(created.state, x));
              && instance.state == Replay(kind.transition, created.state, events)
              && instance.version == created.version + |events|
      ensures var created := policy.createInstance(x, sagaId);
              var callbacks := selector(created.state, x);
              var held := created.uncommitted + Emitted(callbacks);
              && (FirstFailure(callbacks).Some? ==>
                    && result == Raised(ActionError(CreateNew, kind.name, x.messageType, sagaId, HandlerException(FirstFailure(callbacks).value)))
                    && store.streams == old(store.streams) && unchanged(stream) && instance.uncommitted == held)
              && (FirstFailure(callbacks).None? && policy.canRemoveInstance(instance.state) ==>
                    && result == Completed
                    && store.streams == old(store.streams) && unchanged(stream) && instance.uncommitted == held)
              && (FirstFailure(callbacks).None? && !policy.canRemoveInstance(instance.state) && RequestCommitId(x, parse).Failure? ==>
                    && result == Raised(ActionError(CreateNew, kind.name, x.messageType, sagaId, RequestCommitId(x, parse).error))
                    && store.streams == old(store.streams) && unchanged(stream) && instance.uncommitted == held)
      ensures var created := policy.createInstance(x, sagaId);
              var callbacks := selector(created.state, x);
              var held := created.uncommitted + Emitted(callbacks);
              FirstFailure(callbacks).None? && !policy.canRemoveInstance(instance.state) && RequestCommitId(x, parse).Success? ==>
                var commitId := RequestCommitId(x, parse).value;
                var staged := old(stream.uncommitted) + Wrap(held);
                var o := CommitStatus(old(store.streams), stream.streamId, old(stream.commitSequence), commitId, fault);
                var err := PersistError(o, kind.name, x.messageType, commitId);
                && result == Conclude(CreateNew, kind.name, x.messageType, sagaId, err)
                && store.streams == AfterCommit(old(store.streams), stream.streamId, old(stream.commitSequence), commitId, staged, fault)
                && stream.committed == (if o == Committed then old(stream.committed) + staged else old(stream.committed))
                && stream.commitSequence == (if o == Committed then old(stream.commitSequence) + 1 else old(stream.commitSequence))
                && stream.uncommitted == (if err.None? then [] else staged)
                && stream.headers == (if err.None? then map[] else old(stream.headers))
                && instance.uncommitted == (if err.None? then [] else held)
    {
      var created := policy.createInstance(x, sagaId);
      instance := new Saga(kind, created.state, created.version, created.uncommitted);
      var callbacks := selector(created.state, x);
      var failure := InvokeHandlers(instance, callbacks);
      if failure.Some? {
        result := Raised(ActionError(CreateNew, kind.name, x.messageType, sagaId, HandlerException(failure.value)));
        return;
      }
      if policy.canRemoveInstance(instance.state) {
        result := Completed;
        return;
      }
      var commitId := RequestCommitId(x, parse);
      if commitId.Failure? {
        result := Raised(ActionError(CreateNew, kind.name, x.messageType, sagaId, commitId.error));
        return;
      }
      var err := Save(instance, stream, commitId.value, x.messageType, fault);
      result := Conclude(CreateNew, kind.name, x.messageType, sagaId, err);
    }

    /**
     * The existing-instance branch's deferred action: run the selected handlers on the rebuilt
     * instance and always save, under `GetCommitId(x)`. The source then evaluates
     * `CanRemoveInstance` and does nothing with the answer, so it has no effect here.
     */
    method RunExisting<M>(x: ConsumeContext<M>, sagaId: Guid, instance: Saga<S, E>, stream: EventStream<E>,
                          selector: HandlerSelector<S, E, M>, parse: string -> Option<Guid>, generated: Guid,
                          fault: Option<string>)
      returns (result: ActionResult)
      requires stream.store == store && instance.kind == kind
      modifies instance, stream, store
      ensures var events := Emitted(selector(old(instance.state), x));
              && instance.state == Replay(kind.transition, old(instance.state), events)
              && instance.version == old(instance.version) + |events|
      ensures var callbacks := selector(old(instance.state), x);
              var held := old(instance.uncommitted) + Emitted(callbacks);
              FirstFailure(callbacks).Some? ==>
                && result == Raised(ActionError(UseExisting, kind.name, x.messageType, sagaId, HandlerException(FirstFailure(callbacks).value)))
                && store.streams == old(store.streams) && unchanged(stream) && instance.uncommitted == held
      ensures var callbacks := selector(old(instance.state), x);
              var held := old(instance.uncommitted) + Emitted(callbacks);
              FirstFailure(callbacks).None? ==>
                var commitId := GetCommitId(x, parse, generated);
                var staged := old(stream.uncommitted) + Wrap(held);
                var o := CommitStatus(old(store.streams), stream.streamId, old(stream.commitSequence), commitId, fault);
                var err := PersistError(o, kind.name, x.messageType, commitId);
                && result == Conclude(UseExisting, kind.name, x.messageType, sagaId, err)
                && store.streams == AfterCommit(old(store.streams), stream.streamId, old(stream.commitSequence), commitId, staged, fault)
                && stream.committed == (if o == Committed then old(stream.committed) + staged else old(stream.committed))
                && stream.commitSequence == (if o == Committed then old(stream.commitSequence) + 1 else old(stream.commitSequence))
                && stream.uncommitted == (if err.None? then [] else staged)
                && stream.headers == (if err.None? then map[] else old(stream.headers))
                && instance.uncommitted == (if err.None? then [] else held)
    {
      var callbacks := selector(instance.state, x);
      var failure := InvokeHandlers(instance, callbacks);
      if failure.Some? {
        result := Raised(ActionError(UseExisting, kind.name, x.messageType, sagaId, HandlerException(failure.value)));
        return;
      }
      var err := Save(instance, stream, GetCommitId(x, parse, generated), x.messageType, fault);
      result := Conclude(UseExisting, kind.name, x.messageType, sagaId, err);
    }

    /** `Where(filter)`: an event store cannot enumerate sagas, so this always fails, never with an empty result. */
    function Where(filter: S -> bool): (r: Result<seq<S>, Exception>)
      ensures r == Failure(NotSupportedException(EnumerationUnsupported))
    {
      Failure(NotSupportedException(EnumerationUnsupported))
    }

    /** `Where<TResult>(filter, transformer)`: `Where(filter)` then `Select(transformer)`. */
    function WhereSelect<R>(filter: S -> bool, transformer: S -> R): (r: Result<seq<R>, Exception>)
      ensures r == Failure(NotSupportedException(EnumerationUnsupported))
    {
      match Where(filter)
      case Failure(e) => Failure(e)
      case Success(sagas) => Success(MapSagas(transformer, sagas))
    }

    /** `Find(filter)`: the correlation ids of the matching sagas, through `Where`; so it fails too. */
    function Find(filter: S -> bool): (r: Result<seq<Guid>, Exception>)
      ensures r == Failure(NotSupportedException(EnumerationUnsupported))
    {
      WhereSelect(filter, kind.correlationId)
    }

    /** `Select(transformer)`: always fails like `Where`. */
    function Select<R>(transformer: S -> R): (r: Result<seq<R>, Exception>)
      ensures r == Failure(NotSupportedException(EnumerationUnsupported))
    {
      Failure(NotSupportedException(EnumerationUnsupported))
    }
  }
}
