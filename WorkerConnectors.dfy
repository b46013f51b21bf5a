/**
 * `EventWorkerConnectorFactory<TSaga, TMessage>`: builds the distributor's worker connector for one
 * data event of a saga state machine, choosing between a property-correlated and an
 * identity-correlated connector.
 */
module WorkerConnectors {
  import opened Wrappers
  import opened Exceptions

  /** `Expression<Func<TSaga, TMessage, bool>>`: a saga property matched against a message property. */
  datatype CorrelationExpression = CorrelationExpression(sagaProperty: string, messageProperty: string)

  /** `Expression<Func<TSaga, bool>>` built by the state machine: "the instance is in its completed state". */
  datatype RemoveExpression = CompletedExpression(completedState: string)

  /** What the factory learns of `TMessage`: its full name and whether it implements `CorrelatedBy<Guid>`. */
  datatype MessageType = MessageType(fullName: string, correlatedByGuid: bool)

  /** `DataEvent<TSaga, TMessage>`. */
  datatype DataEvent = DataEvent(name: string)

  /** A state of the saga state machine. */
  type State = string

  /** What `SagaStateMachine<TSaga>` has registered: its completed state and the correlation expressions per event. */
  datatype StateMachine = StateMachine(completedState: State, correlations: map<string, CorrelationExpression>)

  /** Collaborators the factory only hands on to the connectors. */
  datatype RepositoryHandle = RepositoryHandle(id: nat)
  datatype PolicyFactoryHandle = PolicyFactoryHandle(id: nat)

  /** `SagaStateMachine<TSaga>.GetCompletedExpression()`. */
  function GetCompletedExpression(machine: StateMachine): RemoveExpression
  {
    CompletedExpression(machine.completedState)
  }

  /** `SagaStateMachine<TSaga>.TryGetCorrelationExpressionForEvent(dataEvent, out expression)`. */
  function TryGetCorrelationExpressionForEvent(machine: StateMachine, dataEvent: DataEvent): (r: Option<CorrelationExpression>)
    ensures r.Some? <==> dataEvent.name in machine.correlations
    ensures r.Some? ==> r.value == machine.correlations[dataEvent.name]
  {
    if dataEvent.name in machine.correlations then Some(machine.correlations[dataEvent.name]) else None
  }

  /** The factory's fields, all assigned once by its constructor. */
  datatype Factory = Factory(
    machine: StateMachine,
    messageType: MessageType,
    sagaRepository: RepositoryHandle,
    policyFactory: PolicyFactoryHandle,
    dataEvent: DataEvent,
    states: seq<State>,
    removeExpression: RemoveExpression)

  /** The constructor: keeps its arguments and computes the remove expression once, from the completed state. */
  function NewFactory(machine: StateMachine, messageType: MessageType, sagaRepository: RepositoryHandle,
                      policyFactory: PolicyFactoryHandle, dataEvent: DataEvent, states: seq<State>): (f: Factory)
    ensures f.removeExpression == CompletedExpression(machine.completedState)
    ensures f.machine == machine && f.messageType == messageType
    ensures f.sagaRepository == sagaRepository && f.policyFactory == policyFactory
    ensures f.dataEvent == dataEvent && f.states == states
  {
    Factory(machine, messageType, sagaRepository, policyFactory, dataEvent, states, GetCompletedExpression(machine))
  }

  /** The arguments both connector variants are built with. */
  datatype Wiring = Wiring(
    sagaRepository: RepositoryHandle,
    dataEvent: DataEvent,
    states: seq<State>,
    policyFactory: PolicyFactoryHandle,
    removeExpression: RemoveExpression)

  function WiringOf(f: Factory): Wiring
  {
    Wiring(f.sagaRepository, f.dataEvent, f.states, f.policyFactory, f.removeExpression)
  }

  /** The two `SagaWorkerConnector` variants. */
  datatype SagaWorkerConnector =
    | PropertyEventSagaWorkerConnector(wiring: Wiring, expression: CorrelationExpression)
    | CorrelatedEventSagaWorkerConnector(wiring: Wiring)

  /** Which variant `Create()` builds for a factory. */
  datatype ConnectorChoice = Property(expression: CorrelationExpression) | Correlated | Unsupported

  /** The decision of `Create()`: a registered expression first, then `CorrelatedBy<Guid>`, else unsupported. */
  function Choose(f: Factory): (c: ConnectorChoice)
    ensures c.Property? <==> TryGetCorrelationExpressionForEvent(f.machine, f.dataEvent).Some?
    ensures c.Property? ==> Some(c.expression) == TryGetCorrelationExpressionForEvent(f.machine, f.dataEvent)
    ensures c == Correlated <==> TryGetCorrelationExpressionForEvent(f.machine, f.dataEvent).None? && f.messageType.correlatedByGuid
    ensures c == Unsupported <==> TryGetCorrelationExpressionForEvent(f.machine, f.dataEvent).None? && !f.messageType.correlatedByGuid
  {
    match TryGetCorrelationExpressionForEvent(f.machine, f.dataEvent)
    case Some(expression) => Property(expression)
    case None => if f.messageType.correlatedByGuid then Correlated else Unsupported
  }

  function NoConnectorMessage(messageType: MessageType): string
  {
    "No method to connect to event was found for " + messageType.fullName
  }

  /**
   * Enumerating `Create()`. `Create` is an iterator, so the call itself never fails; enumerating
   * it yields the single chosen connector, or throws `NotSupportedException` naming the message type.
   */
  function Create(f: Factory): (r: Result<seq<SagaWorkerConnector>, Exception>)
    ensures r.Success? ==> |r.value| == 1 && r.value[0].wiring == WiringOf(f)
    ensures r.Failure? <==> Choose(f) == Unsupported
    ensures r.Failure? ==> r.error == NotSupportedException(NoConnectorMessage(f.messageType))
    ensures Choose(f).Property? ==> r == Success([PropertyEventSagaWorkerConnector(WiringOf(f), Choose(f).expression)])
    ensures Choose(f) == Correlated ==> r == Success([CorrelatedEventSagaWorkerConnector(WiringOf(f))])
  {
    match Choose(f)
    case Property(expression) => Success([PropertyEventSagaWorkerConnector(WiringOf(f), expression)])
    case Correlated => Success([CorrelatedEventSagaWorkerConnector(WiringOf(f))])
    case Unsupported => Failure(NotSupportedException(NoConnectorMessage(f.messageType)))
  }

  /** A registered expression wins whether or not the message implements `CorrelatedBy<Guid>`. */
  lemma PropertyTakesPriority(f: Factory, correlatedByGuid: bool)
    requires TryGetCorrelationExpressionForEvent(f.machine, f.dataEvent).Some?
    ensures Create(f.(messageType := f.messageType.(correlatedByGuid := correlatedByGuid))) == Create(f)
  {
  }

  /** Every connector a constructed factory yields carries the state machine's completed expression and the factory's collaborators. */
  lemma ConnectorsShareWiring(machine: StateMachine, messageType: MessageType, sagaRepository: RepositoryHandle,
                              policyFactory: PolicyFactoryHandle, dataEvent: DataEvent, states: seq<State>)
    ensures var r := Create(NewFactory(machine, messageType, sagaRepository, policyFactory, dataEvent, states));
            r.Success? ==> forall c :: c in r.value ==>
              c.wiring == Wiring(sagaRepository, dataEvent, states, policyFactory, GetCompletedExpression(machine))
  {
  }

  /** A `CorrelatedBy<Guid>` message such as the tests' `NewOrderMessage`, with no registered expression, gets the identity-correlated connector. */
  lemma CorrelatedMessageGetsIdentityConnector(machine: StateMachine, dataEvent: DataEvent, states: seq<State>)
    requires dataEvent.name !in machine.correlations
    ensures var f := NewFactory(machine, MessageType("MassTransit.EventStoreIntegration.Tests.NewOrderMessage", true),
                                RepositoryHandle(0), PolicyFactoryHandle(0), dataEvent, states);
            Create(f) == Success([CorrelatedEventSagaWorkerConnector(WiringOf(f))])
  {
  }
}
