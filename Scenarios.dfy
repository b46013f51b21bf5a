/**
 * Two deliveries of one message to a saga that does not exist yet, followed through the
 * repository's contracts: the first creates the saga, the second finds it.
 */
module Scenarios {
  import opened Wrappers
  import opened Exceptions
  import opened Sagas
  import opened EventStore
  import opened Repository

  /** A counting saga: its state is the sum of its events. */
  function Counter(): SagaType<int, int>
  {
    SagaType("CounterSaga", 0, (s: int, e: int) => s + e, (s: int) => 1)
  }

  /** A policy that always creates and always uses the existing instance; `CreateInstance` gives `new TSaga()`. */
  function AlwaysPolicy(): SagaPolicy<int, int, int>
  {
    SagaPolicy((x: ConsumeContext<int>) => true, (x: ConsumeContext<int>) => true, (s: int) => false,
               (x: ConsumeContext<int>, id: Guid) => Created(0, 0, []))
  }

  /** Every message raises one event of weight 1. */
  function RaiseOne(): HandlerSelector<int, int, int>
  {
    (s: int, x: ConsumeContext<int>) => [Raise([1])]
  }

  /** "r" and "m" are the only strings that parse, as Guids 7 and 9. */
  function ParseTwo(): string -> Option<Guid>
  {
    (s: string) => if s == "r" then Some(7) else if s == "m" then Some(9) else None
  }

  /**
   * A `CreateInstance` that sets the state directly (to 5, as one setting a CorrelationId would)
   * without raising an event: the create action leaves the saga at 6 after one event, but the
   * next load rebuilds it from `new TSaga()` at 1.
   */
  lemma CreatedStateLostOnRebuild()
    ensures Replay(Counter().transition, 5, [1]) == 6
    ensures RebuiltAfterCreate(Counter(), Created(5, 0, []), [1]) == 1
  {
    assert [] + Wrap([] + [1]) == [EventMessage(1)];
    assert Bodies([EventMessage(1)]) == [1];
    assert [1][..0] == [];
  }

  /**
   * A message with only a RequestId is committed under the same id by both branches, so its
   * redelivery is a duplicate commit and the stream keeps one event.
   */
  method RedeliveryWithoutMessageId()
  {
    var store := new EventStore<int>();
    var repo := new EventStoreRepository(store, Counter());
    var x := ConsumeContext(0, "CountMessage", None, Some("r"), None, None);
    assert Emitted(RaiseOne()(0, x)) == [1];

    var actions, stream, instance := repo.GetSaga(x, 1, AlwaysPolicy());
    assert actions == [CreateNew];
    var result, created := repo.RunCreate(x, 1, stream, RaiseOne(), AlwaysPolicy(), ParseTwo(), None);
    assert result == Completed;
    assert History(store.streams, 1) == [EventMessage(1)];

    actions, stream, instance := repo.GetSaga(x, 1, AlwaysPolicy());
    assert actions == [UseExisting] && instance != null && instance.state == 1;
    assert Emitted(RaiseOne()(1, x)) == [1];
    result := repo.RunExisting(x, 1, instance, stream, RaiseOne(), ParseTwo(), 42, None);
    assert result == Completed;
    assert History(store.streams, 1) == [EventMessage(1)];
  }

  /**
   * A message whose MessageId and RequestId parse to different Guids is committed under the
   * RequestId on creation and under the MessageId on redelivery: the redelivery is not recognised
   * as a duplicate and the stream ends with the event twice.
   */
  method RedeliveryWithMessageId()
  {
    var store := new EventStore<int>();
    var repo := new EventStoreRepository(store, Counter());
    var x := ConsumeContext(0, "CountMessage", Some("m"), Some("r"), None, None);
    assert Emitted(RaiseOne()(0, x)) == [1];

    var actions, stream, instance := repo.GetSaga(x, 1, AlwaysPolicy());
    assert actions == [CreateNew];
    var result, created := repo.RunCreate(x, 1, stream, RaiseOne(), AlwaysPolicy(), ParseTwo(), None);
    assert result == Completed;
    assert History(store.streams, 1) == [EventMessage(1)];

    actions, stream, instance := repo.GetSaga(x, 1, AlwaysPolicy());
    assert actions == [UseExisting] && instance != null;
    assert Emitted(RaiseOne()(instance.state, x)) == [1];
    result := repo.RunExisting(x, 1, instance, stream, RaiseOne(), ParseTwo(), 42, None);
    assert result == Completed;
    assert History(store.streams, 1) == [EventMessage(1), EventMessage(1)];
  }
}
