# MassTransit event-store saga repository, modelled in Dafny

This project models two parts of MassTransit.

**`EventStoreRepository<TSaga>`.** This is a saga repository that keeps every saga as an event stream in an event store (NEventStore). For one inbound message and one saga id, `GetSaga` does three things:

- It opens the saga's stream and rebuilds the saga by replaying the stream's committed events through `Transition`. If the stream does not exist, it creates a new, empty stream.
- It asks the saga policy whether to create an instance or to use the existing one.
- It yields zero or one deferred action.

A deferred action runs the handler callbacks chosen by the handler selector. It then saves the saga:

- The saga's uncommitted events are staged on the stream as event messages and committed under a commit id.
- The event store detects duplicate commits by their commit id, and concurrent writers by the commit sequence each one observed.
- Any exception raised inside the action is re-thrown, wrapped in a `SagaException`.

`Find`, `Where` and `Select` always throw `NotSupportedException`.

**`EventWorkerConnectorFactory<TSaga, TMessage>`.** It builds the distributor's worker connector for one data event of a saga state machine:

- It uses a property-correlated connector when the state machine has a correlation expression for the event.
- Otherwise it uses an identity-correlated connector when the message implements `CorrelatedBy<Guid>`.
- Otherwise enumerating `Create()` throws `NotSupportedException`.

## Modules

- `Wrappers`: `Option` and `Result`.
- `Exceptions`: the exceptions that leave the repository and the factory.
- `Sagas`:
  - the `IEventSourcedSaga` contract, as the class `Saga`;
  - `Replay`, the fold of `Transition` over events;
  - handler callbacks and what a run of them emits.
- `EventStore`: the store, as a class holding a map from stream id to committed events and applied commit ids, and open streams as a class with staged events and headers.
  - `CommitStatus` is the store's verdict on a commit, and `AfterCommit` is the store after it. Both are specification functions.
  - `EventStream.CommitChanges` is proved against them.
- `Repository`:
  - the repository class;
  - the pure parts: the commit id, the branch decision, and the classification of commit outcomes.
- `WorkerConnectors`: the connector factory, as pure functions on values.
- `Scenarios`:
  - two deliveries of the same message, followed through the contracts, showing when the second delivery is recognised as a duplicate and when it is not;
  - a concrete saga whose created state is lost on rebuild.

## Environment as parameters

Some inputs would come from the environment. They are parameters of the model:

- `Guid.TryParse` (and `new Guid(string)`) is a function `string -> Option<Guid>`.
- `CombGuid.Generate()` is a `generated` Guid.
- A storage failure of the backend is a `fault: Option<string>`.
- Handler callbacks are values: `Raise(events)` raises events on the saga, `Fail(reason)` throws.
- `new TSaga()` is the `blank` state of a `SagaType`. `Transition` is its `transition` function.
- `CreateInstance` returns a `Created` value: the new saga's state, version and the events it already holds as uncommitted.

## Where the code and its design description differ (the model follows the code)

- **Commit id in the create branch.** The design describes one commit id, derived from MessageId, RequestId, CorrelationId and ConversationId in that order, used by both branches. The create branch actually commits under `new Guid(x.RequestId)` (EventStoreRepository.cs:108). That call throws when RequestId is absent or does not parse. Only the existing-instance branch uses `GetCommitId`.
  - `CommitIdsOfBranches` proves that the two branches agree exactly when the message has no MessageId, or when its MessageId parses to the same Guid as its RequestId.
  - `Scenarios.RedeliveryWithMessageId` follows a message whose MessageId and RequestId differ. Its redelivery is committed a second time, not reported as a duplicate.
- **Concurrency conflicts.** The design describes conflicts as caught at the stream level. `Persist` catches only `DuplicateCommitException` and `StorageException` (EventStoreRepository.cs:227-235). A concurrency conflict therefore leaves `Save` uncaught, skips `ClearUncommittedEvents`, and reaches the action's catch, which wraps it in a `SagaException`.
- **State set by `CreateInstance` is not stored.** The create branch's saga starts from whatever `CreateInstance` returns (EventStoreRepository.cs:101). The stream records only its uncommitted events, and a later load starts again from `new TSaga()` (EventStoreRepository.cs:185). So anything `CreateInstance` sets without raising an event, a CorrelationId for instance, is lost on the next load.
  - `CreatedStateReplays` proves the rebuild agrees with the created saga for every run of events exactly when `CreateInstance`'s state is what `new TSaga()` reaches through the saga's own uncommitted events.
  - `Scenarios.CreatedStateLostOnRebuild` gives a counterexample: a created state of 5 and one event of weight 1 run to 6 in memory, but the rebuild gives 1.
- **When an unsupported message is reported.** The design expects the connector factory to refuse an unsupported message when it is wired. `Create()` is an iterator (EventWorkerConnectorFactory.cs:51, 76-78), so calling it never throws. The `NotSupportedException` arises only when its result is enumerated. `WorkerConnectors.Create` models that enumeration.
- **`CanRemoveInstance` in the existing-instance branch.** The code evaluates it after saving and ignores the answer (EventStoreRepository.cs:147). The saga is always saved in that branch.

## Model

| member | source | states |
|---|---|---|
| Sagas.ReplayStep | src/MassTransit.EventStoreIntegration/EventStoreRepository.cs:187-188 | replaying one more committed event is one more `Transition` on the state replayed so far |
| Sagas.ReplayAppend | src/MassTransit.EventStoreIntegration/EventStoreRepository.cs:36-59 | replay is replay-safe across a split: replaying `a + b` equals replaying `b` from the state `a` reaches |
| Sagas.FirstFailureIsFirst | src/MassTransit.EventStoreIntegration/EventStoreRepository.cs:104-105 | a run of callbacks throws exactly when some callback throws, and then with the first such callback's reason |
| Sagas.EmittedAll | src/MassTransit.EventStoreIntegration/EventStoreRepository.cs:104-105 | while no callback has thrown, a raising callback adds its events, in order, after those already emitted |
| Sagas.EmittedStopsAtFailure | src/MassTransit.EventStoreIntegration/EventStoreRepository.cs:104-105 | a throwing callback stops the loop: no later callback's events are emitted, and the run fails with its reason |
| Sagas.EmittedStep | src/MassTransit.EventStoreIntegration/EventStoreRepository.cs:140-143 | one more loop step: a raising callback extends the emitted events; a throwing one ends the run with the events so far |
| Sagas.ReplayCallbackStep | src/MassTransit.EventStoreIntegration/EventStoreRepository.cs:140-143 | the saga state after one more raising callback is that callback's events replayed on the state before it |
| Sagas.Saga.constructor | src/MassTransit.EventStoreIntegration/EventStoreRepository.cs:185 | a saga object holds exactly the given state, version and uncommitted events (`new TSaga()` is the blank state, 0 and none) |
| Sagas.Saga.Transition | src/MassTransit.EventStoreIntegration/EventStoreRepository.cs:43-47 | the state becomes the saga type's transition of the old state and the event; the version grows by one; uncommitted events are unchanged |
| Sagas.Saga.RaiseEvents | src/MassTransit.EventStoreIntegration/EventStoreRepository.cs:49-53 | raising events leaves the state at their replay, advances the version by their number, and appends them to the uncommitted events in order |
| Sagas.Saga.ClearUncommittedEvents | src/MassTransit.EventStoreIntegration/EventStoreRepository.cs:55-58 | uncommitted events become empty; state and version are untouched |
| EventStore.BodiesWrap | src/MassTransit.EventStoreIntegration/EventStoreRepository.cs:213-217 | unwrapping event messages built from events gives back exactly those events (the round trip between staging and replay) |
| EventStore.BodiesAppend | src/MassTransit.EventStoreIntegration/EventStoreRepository.cs:187 | the bodies of a concatenation of stored messages are the concatenated bodies |
| EventStore.WrapAppend | src/MassTransit.EventStoreIntegration/EventStoreRepository.cs:213-217 | wrapping a concatenation of events is concatenating the wrapped parts |
| EventStore.WrapStep | src/MassTransit.EventStoreIntegration/EventStoreRepository.cs:215-217 | wrapping one more event adds exactly one event message at the end |
| EventStore.CommitStatus | src/MassTransit.EventStoreIntegration/EventStoreRepository.cs:221-236 | the store's verdict on `CommitChanges`: a storage failure whenever the backend faults; otherwise a duplicate exactly when the commit id was already applied; otherwise a concurrency conflict exactly when the writer's observed commit sequence is behind; otherwise accepted |
| EventStore.AfterCommit | src/MassTransit.EventStoreIntegration/EventStoreRepository.cs:221-236 | an accepted commit appends the staged events and the commit id to that stream only; every other outcome leaves the store as it was; other streams are untouched; history and applied ids only grow (append-only) |
| EventStore.RetryIsDuplicate | src/MassTransit.EventStoreIntegration/EventStoreRepository.cs:228-231 | re-sending an accepted commit id, with any observed sequence and any events, is reported as a duplicate and writes nothing: the events are materialised once |
| EventStore.OneWriterWins | src/MassTransit.EventStoreIntegration/EventStoreRepository.cs:225-227 | of two writers with different commit ids that observed the same commit sequence, once the first is accepted the second gets a concurrency conflict |
| EventStore.CommitsCommute | src/MassTransit.EventStoreIntegration/EventStoreRepository.cs:225 | commits to streams of different saga ids are isolated: each one's outcome is the same whether or not the other was applied first, and both orders give the same store |
| EventStore.EventStore.constructor | src/MassTransit.EventStoreIntegration/EventStoreRepository.cs:72 | a new store holds no streams |
| EventStore.EventStore.OpenStream | src/MassTransit.EventStoreIntegration/EventStoreRepository.cs:184-190 | opening succeeds exactly when the stream has commits; the opened stream holds all committed events and the commit sequence, with nothing staged |
| EventStore.EventStore.CreateStream | src/MassTransit.EventStoreIntegration/EventStoreRepository.cs:193 | a created stream is new and empty and the store is not written |
| EventStore.EventStream.constructor | src/MassTransit.EventStoreIntegration/EventStoreRepository.cs:184 | an opened stream records its store, id, committed events and commit sequence, with nothing staged |
| EventStore.EventStream.Add | src/MassTransit.EventStoreIntegration/EventStoreRepository.cs:217 | one event message is appended to the staged events; nothing else changes |
| EventStore.EventStream.SetHeader | src/MassTransit.EventStoreIntegration/EventStoreRepository.cs:211 | the staged header `key` is set to `value`; nothing else changes |
| EventStore.EventStream.ClearChanges | src/MassTransit.EventStoreIntegration/EventStoreRepository.cs:230 | the staged events and headers are dropped; the committed view is unchanged |
| EventStore.EventStream.CommitChanges | src/MassTransit.EventStoreIntegration/EventStoreRepository.cs:225 | the outcome is `CommitStatus` and the store becomes `AfterCommit` of the staged events; on acceptance the stream moves its staged events to its committed view and advances its commit sequence, otherwise it keeps everything staged |
| Repository.ParseOrGenerate | src/MassTransit.EventStoreIntegration/EventStoreRepository.cs:173-174 | a present value that parses gives its Guid; an absent or unparseable value gives the generated id |
| Repository.Coalesce | src/MassTransit.EventStoreIntegration/EventStoreRepository.cs:172 | a chain of `??` is null exactly when every candidate is; otherwise it is the first present candidate |
| Repository.GetCommitId | src/MassTransit.EventStoreIntegration/EventStoreRepository.cs:169-176 | the commit id is the first present of MessageId, RequestId, CorrelationId and ConversationId, parsed; if that value is absent or does not parse, the generated id (a present but unparseable MessageId does not fall through to RequestId) |
| Repository.RequestCommitId | src/MassTransit.EventStoreIntegration/EventStoreRepository.cs:108 | the create branch's commit id is the parsed RequestId; an absent RequestId throws `ArgumentNullException`, an unparseable one `FormatException` |
| Repository.CreateCommitIdIgnoresMessageId | src/MassTransit.EventStoreIntegration/EventStoreRepository.cs:108 | the create branch's commit id does not depend on the MessageId |
| Repository.CommitIdsOfBranches | src/MassTransit.EventStoreIntegration/EventStoreRepository.cs:108-145 | the create and the existing branch commit a message under the same id when it has no MessageId; with a parseable MessageId, exactly when it parses to the same Guid as the RequestId |
| Repository.Decide | src/MassTransit.EventStoreIntegration/EventStoreRepository.cs:89-166 | at most one action; without an instance, the create action exactly when the policy can create an instance; with one, the existing action exactly when the policy can use the existing instance; otherwise none |
| Repository.ActionError | src/MassTransit.EventStoreIntegration/EventStoreRepository.cs:110-118 | the exception a deferred action re-throws is a `SagaException` with "Create Saga Instance Exception" in the create branch and "Existing Saga Instance Exception" in the existing branch, carrying the saga and message types, the saga id and the caught exception |
| Repository.Conclude | src/MassTransit.EventStoreIntegration/EventStoreRepository.cs:150-157 | an action completes exactly when saving raised nothing; otherwise it raises the branch's `SagaException` around the saving error |
| Repository.PersistError | src/MassTransit.EventStoreIntegration/EventStoreRepository.cs:221-236 | `Persist` completes exactly on an accepted or a duplicate commit; a concurrency conflict escapes unchanged; a storage failure becomes a `SagaException` carrying the commit id, the saga and message types, and the storage exception |
| Repository.CommittedStateReplays | src/MassTransit.EventStoreIntegration/EventStoreRepository.cs:140-145 | an instance rebuilt from a history, which then raises events that are committed, is in the state a later rebuild from the stream reaches |
| Repository.CreatedStateReplays | src/MassTransit.EventStoreIntegration/EventStoreRepository.cs:101-108 | a saga from `CreateInstance` committed to its new stream is rebuilt (from `new TSaga()`, line 185) in the state the action left it in, for every run of events, exactly when `CreateInstance`'s state is what `new TSaga()` reaches through its own uncommitted events |
| Scenarios.CreatedStateLostOnRebuild | src/MassTransit.EventStoreIntegration/EventStoreRepository.cs:101-108 | a `CreateInstance` state of 5 with no events, followed by one event, is 6 in memory but 1 after a rebuild |
| Repository.MapSagas | src/MassTransit.EventStoreIntegration/EventStoreRepository.cs:251 | `.Select(transformer)` keeps the length and maps each saga, position by position |
| Repository.HeaderStep | src/MassTransit.EventStoreIntegration/EventStoreRepository.cs:210-211 | copying one more header extends the copied headers by exactly that key |
| Repository.EventStoreRepository.constructor | src/MassTransit.EventStoreIntegration/EventStoreRepository.cs:74-79 | the repository keeps its event store (and the saga type it serves) |
| Repository.EventStoreRepository.TryGetSaga | src/MassTransit.EventStoreIntegration/EventStoreRepository.cs:178-197 | always a fresh stream positioned after all commits; an instance exactly when the stream exists, rebuilt from `new TSaga()` by replaying its committed events, with version equal to their number and nothing uncommitted |
| Repository.EventStoreRepository.GetSaga | src/MassTransit.EventStoreIntegration/EventStoreRepository.cs:81-167 | the actions yielded are the branch decision for whether an instance was found; nothing is written to the store; the captured stream and instance are as `TryGetSaga` gives them, the instance rebuilt from the committed events with version equal to their number and nothing uncommitted |
| Repository.EventStoreRepository.InvokeHandlers | src/MassTransit.EventStoreIntegration/EventStoreRepository.cs:104-105 | the loop ends with the first throwing callback's reason, or none; the saga's state is the replay of the events emitted before that point, and exactly those events were appended to its uncommitted events |
| Repository.EventStoreRepository.PrepareStream | src/MassTransit.EventStoreIntegration/EventStoreRepository.cs:208-220 | the headers are merged into the stream's staged headers and the saga's uncommitted events are staged after those already staged, wrapped and in order |
| Repository.EventStoreRepository.StageHeaders | src/MassTransit.EventStoreIntegration/EventStoreRepository.cs:210-211 | after the loop the staged headers are the old ones overridden by every given header; staged events are untouched |
| Repository.EventStoreRepository.StageEvents | src/MassTransit.EventStoreIntegration/EventStoreRepository.cs:213-217 | every event is staged as one event message, in order, after those already staged |
| Repository.EventStoreRepository.Persist | src/MassTransit.EventStoreIntegration/EventStoreRepository.cs:221-236 | the error leaving `Persist` is `PersistError` of the commit outcome; the store becomes `AfterCommit`; a duplicate also drops the staged changes |
| Repository.EventStoreRepository.Save | src/MassTransit.EventStoreIntegration/EventStoreRepository.cs:199-206 | the saga's uncommitted events are committed after anything already staged; the saga's uncommitted events are cleared exactly when `Persist` did not throw; its state and version are untouched |
| Repository.EventStoreRepository.RunCreate | src/MassTransit.EventStoreIntegration/EventStoreRepository.cs:93-119 | the instance `CreateInstance` returns (its state, version and events) runs the handlers. A throwing handler raises "Create Saga Instance Exception" and leaves the store and the stream untouched. So does a missing or unparseable RequestId. A removable instance completes, also with nothing written. Otherwise every event the instance holds is committed under the RequestId. The stream then ends as `Save` leaves it, and the result is completion or the wrapped persist error. |
| Repository.EventStoreRepository.RunExisting | src/MassTransit.EventStoreIntegration/EventStoreRepository.cs:132-158 | the rebuilt instance runs the handlers. A throwing handler raises "Existing Saga Instance Exception" with nothing written. Otherwise its uncommitted events are always committed under `GetCommitId`. The stream ends as `Save` leaves it: on acceptance the events move to its committed view, on an error they stay staged. The result is completion or the wrapped persist error, a concurrency conflict included. |
| Repository.EventStoreRepository.Where | src/MassTransit.EventStoreIntegration/EventStoreRepository.cs:243-246 | always `NotSupportedException` with the enumeration message, never a (possibly empty) result |
| Repository.EventStoreRepository.WhereSelect | src/MassTransit.EventStoreIntegration/EventStoreRepository.cs:248-252 | fails with `Where`'s exception whatever the transformer |
| Repository.EventStoreRepository.Find | src/MassTransit.EventStoreIntegration/EventStoreRepository.cs:238-241 | going through `Where`, it always fails with the same `NotSupportedException` |
| Repository.EventStoreRepository.Select | src/MassTransit.EventStoreIntegration/EventStoreRepository.cs:254-257 | always `NotSupportedException` with the enumeration message |
| WorkerConnectors.TryGetCorrelationExpressionForEvent | src/MassTransit/Distributor/WorkerConnectors/EventWorkerConnectorFactory.cs:54 | an expression is found exactly when one is registered for the data event, and it is that expression |
| WorkerConnectors.NewFactory | src/MassTransit/Distributor/WorkerConnectors/EventWorkerConnectorFactory.cs:40-49 | the constructor keeps its collaborators and captures the state machine's completed expression as the remove expression |
| WorkerConnectors.Choose | src/MassTransit/Distributor/WorkerConnectors/EventWorkerConnectorFactory.cs:51-79 | property-correlated exactly when an expression is registered; identity-correlated exactly when none is and the message is `CorrelatedBy<Guid>`; unsupported exactly when neither |
| WorkerConnectors.Create | src/MassTransit/Distributor/WorkerConnectors/EventWorkerConnectorFactory.cs:51-79 | enumeration yields exactly one connector of the chosen variant, wired with the repository, data event, states, policy factory and remove expression (and the expression for the property variant); it throws `NotSupportedException` naming the message type exactly when the choice is unsupported |
| WorkerConnectors.PropertyTakesPriority | src/MassTransit/Distributor/WorkerConnectors/EventWorkerConnectorFactory.cs:54-65 | when an expression is registered, whether the message implements `CorrelatedBy<Guid>` does not change the result |
| WorkerConnectors.ConnectorsShareWiring | src/MassTransit/Distributor/WorkerConnectors/EventWorkerConnectorFactory.cs:48-74 | every connector from a constructed factory carries the constructor's collaborators and the completed expression |
| WorkerConnectors.CorrelatedMessageGetsIdentityConnector | src/Persistence/MassTransit.EventStoreIntegration.Tests/Messages/NewOrderMessage.cs:6-13 | a `CorrelatedBy<Guid>` message such as `NewOrderMessage`, with no registered expression, gets exactly the identity-correlated connector |

## Left out

- Logging (`_log.DebugFormat`, `_log.Info`, `_log.Error`) and friendly type names: they have no effect on state or results.
- `GetSaga` as a lazy iterator. It is modelled enumerated: `GetSaga` returns the actions it would yield, and `RunCreate`/`RunExisting` are the bodies of those actions, each run once.
- `Guid.TryParse`, `new Guid(string)` and `CombGuid.Generate()`: parameters, as listed above. The format of a Guid string is not modelled.
- The NEventStore backend. It is an in-memory, sequential map. Real concurrency is stood in for by the commit sequence each writer observed. Backend I/O failures are the `fault` parameter, and the other exceptions a backend may throw are not modelled.
- EventStore.EventStream.CommitChanges: a commit with nothing staged is accepted like any other. It records the commit id, and the stream then exists. NEventStore versions that return early from `CommitChanges` when nothing is staged are not modelled, because that library is not part of this model. Under that rule, a create action whose handlers raise nothing would not make the saga's stream exist.
- Commit headers beyond those staged: `Save` always passes an empty header dictionary, which the model keeps.
- `Sagas.Saga.version`: an unbounded `nat`, not C#'s `ulong`; wrap-around after 2^64 events is not modelled.
- `Sagas.Saga`: `GetUncommittedEvents()` is the field `uncommitted`. `Transition` and `CorrelationId` are the saga type's functions. The saga's other properties are part of its state `S`.
- Reflection, `FastActivator` and generic type construction in `Create()`: connectors are datatype values holding their constructor arguments.
- `WorkerConnectors.TryGetCorrelationExpressionForEvent` and `GetCompletedExpression`: the state machine is a registration map and a completed state; how Magnum builds the expressions is not part of this model.
- Repository.EventStoreRepository.constructor: the null check on the event store, because Dafny references are never null.
- Repository.EventStoreRepository.RunCreate and RunExisting: exceptions thrown by the policy, by `CreateInstance` or by the handler selector itself are not modelled; only handler callbacks fail.
- Repository.EventStoreRepository.RunExisting: generating the fallback commit id happens only when `GetCommitId` needs one; the model passes it in regardless.
- ISagaFilter: the filters of `Find` and `Where` are predicates, and never evaluated, since those operations throw first.
