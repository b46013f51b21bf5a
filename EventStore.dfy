/**
 * The event store the repository writes through (NEventStore's `IStoreEvents` and `IEventStream`),
 * as a sequential in-memory map from stream id to committed events and applied commit ids.
 */
module EventStore {
  import opened Wrappers
  import opened Exceptions

  /** NEventStore's `EventMessage`: an event as the stream stores it, in its `Body`. */
  datatype EventMessage<E> = EventMessage(body: E)

  /** The bodies of stored event messages, in order. */
  function Bodies<E>(messages: seq<EventMessage<E>>): seq<E>
  {
    seq(|messages|, i requires 0 <= i < |messages| => messages[i].body)
  }

  /** Each event wrapped as an event message, in order. */
  function Wrap<E>(events: seq<E>): seq<EventMessage<E>>
  {
    seq(|events|, i requires 0 <= i < |events| => EventMessage(events[i]))
  }

  /** Unwrapping what was wrapped gives back the events. */
  lemma BodiesWrap<E>(events: seq<E>)
    ensures Bodies(Wrap(events)) == events
  {
  }

  lemma BodiesAppend<E>(a: seq<EventMessage<E>>, b: seq<EventMessage<E>>)
    ensures Bodies(a + b) == Bodies(a) + Bodies(b)
  {
  }

  lemma WrapAppend<E>(a: seq<E>, b: seq<E>)
    ensures Wrap(a + b) == Wrap(a) + Wrap(b)
  {
  }

  lemma WrapStep<E>(events: seq<E>, i: nat)
    requires i < |events|
    ensures Wrap(events[..i + 1]) == Wrap(events[..i]) + [EventMessage(events[i])]
  {
  }

  /** What the store holds for one stream: its committed events and the ids of the commits applied, in order. */
  datatype StoredStream<E> = StoredStream(events: seq<EventMessage<E>>, commits: seq<Guid>)

  type Streams<E> = map<Guid, StoredStream<E>>

  /** The committed events of stream `id`; a stream never committed to has none. */
  function History<E>(streams: Streams<E>, id: Guid): seq<EventMessage<E>>
  {
    if id in streams then streams[id].events else []
  }

  /** The commit ids applied to stream `id`, oldest first; their number is the stream's commit sequence. */
  function Applied<E>(streams: Streams<E>, id: Guid): seq<Guid>
  {
    if id in streams then streams[id].commits else []
  }

  /** How a backend answers `CommitChanges`. */
  datatype CommitOutcome =
    | Committed
    | DuplicateCommit            // `DuplicateCommitException`
    | ConcurrencyConflict        // `ConcurrencyException`
    | StorageFailure(message: string)  // `StorageException`

  /**
   * The backend's verdict on committing to stream `id` under `commitId`, for a writer that observed
   * commit sequence `observed`; `fault` is the I/O failure the backend meets, if it meets one.
   */
  function CommitStatus<E>(streams: Streams<E>, id: Guid, observed: nat, commitId: Guid, fault: Option<string>): (o: CommitOutcome)
    ensures o.StorageFailure? <==> fault.Some?
    ensures o == DuplicateCommit <==> fault.None? && commitId in Applied(streams, id)
    ensures o == ConcurrencyConflict <==> fault.None? && commitId !in Applied(streams, id) && observed != |Applied(streams, id)|
    ensures o == Committed <==> fault.None? && commitId !in Applied(streams, id) && observed == |Applied(streams, id)|
  {
    if fault.Some? then StorageFailure(fault.value)
    else if commitId in Applied(streams, id) then DuplicateCommit
    else if observed != |Applied(streams, id)| then ConcurrencyConflict
    else Committed
  }

  /** The store after that commit: only an accepted commit changes it, and only stream `id`, by appending. */
  function AfterCommit<E>(streams: Streams<E>, id: Guid, observed: nat, commitId: Guid, events: seq<EventMessage<E>>,
                          fault: Option<string>): (r: Streams<E>)
    ensures CommitStatus(streams, id, observed, commitId, fault) == Committed ==>
              History(r, id) == History(streams, id) + events && Applied(r, id) == Applied(streams, id) + [commitId]
    ensures CommitStatus(streams, id, observed, commitId, fault) != Committed ==> r == streams
    ensures forall other :: other != id ==> (other in r <==> other in streams)
    ensures forall other :: other != id && other in streams ==> r[other] == streams[other]
    ensures forall k :: History(streams, k) <= History(r, k) && Applied(streams, k) <= Applied(r, k)
  {
    if CommitStatus(streams, id, observed, commitId, fault) == Committed then
      streams[id := StoredStream(History(streams, id) + events, Applied(streams, id) + [commitId])]
    else streams
  }

  /** A commit id that was accepted is recognised on every retry: the retry reports a duplicate and writes nothing. */
  lemma RetryIsDuplicate<E>(streams: Streams<E>, id: Guid, observed: nat, commitId: Guid, events: seq<EventMessage<E>>,
                            observed': nat, events': seq<EventMessage<E>>)
    requires CommitStatus(streams, id, observed, commitId, None) == Committed
    ensures var after := AfterCommit(streams, id, observed, commitId, events, None);
            && CommitStatus(after, id, observed', commitId, None) == DuplicateCommit
            && AfterCommit(after, id, observed', commitId, events', None) == after
            && History(after, id) == History(streams, id) + events
  {
  }

  /** Two writers that observed the same commit sequence cannot both commit under different ids. */
  lemma OneWriterWins<E>(streams: Streams<E>, id: Guid, observed: nat, first: Guid, second: Guid,
                                            events: seq<EventMessage<E>>)
    requires first != second && second !in Applied(streams, id)
    requires CommitStatus(streams, id, observed, first, None) == Committed
    ensures CommitStatus(AfterCommit(streams, id, observed, first, events, None), id, observed, second, None) == ConcurrencyConflict
  {
    var after := AfterCommit(streams, id, observed, first, events, None);
    assert Applied(after, id) == Applied(streams, id) + [first];
    assert |Applied(after, id)| == observed + 1;
  }

  /**
   * Commits to different streams do not interfere: each one's outcome is the same whether or not
   * the other was applied first, and applying them in either order gives the same store.
   */
  lemma CommitsCommute<E>(streams: Streams<E>, id1: Guid, observed1: nat, commit1: Guid, events1: seq<EventMessage<E>>,
                          id2: Guid, observed2: nat, commit2: Guid, events2: seq<EventMessage<E>>)
    requires id1 != id2
    ensures CommitStatus(AfterCommit(streams, id1, observed1, commit1, events1, None), id2, observed2, commit2, None)
         == CommitStatus(streams, id2, observed2, commit2, None)
    ensures CommitStatus(AfterCommit(streams, id2, observed2, commit2, events2, None), id1, observed1, commit1, None)
         == CommitStatus(streams, id1, observed1, commit1, None)
    ensures AfterCommit(AfterCommit(streams, id1, observed1, commit1, events1, None), id2, observed2, commit2, events2, None)
         == AfterCommit(AfterCommit(streams, id2, observed2, commit2, events2, None), id1, observed1, commit1, events1, None)
  {
  }

  /** The backing store (`IStoreEvents`). */
  class EventStore<E> {
    var streams: Streams<E>

    constructor ()
      ensures streams == map[]
    {
      streams := map[];
    }

    /** `OpenStream(id, 0, int.MaxValue)`: a stream positioned after every commit, or not-found. */
    method OpenStream(id: Guid) returns (r: Option<EventStream<E>>)
      ensures r.Some? <==> id in streams
      ensures r.Some? ==> fresh(r.value) && r.value.store == this && r.value.streamId == id
      ensures r.Some? ==> r.value.committed == History(streams, id) && r.value.commitSequence == |Applied(streams, id)|
      ensures r.Some? ==> r.value.uncommitted == [] && r.value.headers == map[]
    {
      if id in streams {
        var s := new EventStream(this, id, streams[id].events, |streams[id].commits|);
        r := Some(s);
      } else {
        r := None;
      }
    }

    /** `CreateStream(id)`: a new, empty stream; the store is not written until it is committed. */
    method CreateStream(id: Guid) returns (s: EventStream<E>)
      ensures fresh(s) && s.store == this && s.streamId == id
      ensures s.committed == [] && s.commitSequence == 0 && s.uncommitted == [] && s.headers == map[]
    {
      s := new EventStream(this, id, [], 0);
    }
  }

  /** An open stream (`IEventStream`): what was committed when it was opened, and what is staged for the next commit. */
  class EventStream<E> {
    const store: EventStore<E>
    const streamId: Guid
    var committed: seq<EventMessage<E>>
    var commitSequence: nat
    var uncommitted: seq<EventMessage<E>>
    var headers: map<string, string>

    constructor (store: EventStore<E>, streamId: Guid, committed: seq<EventMessage<E>>, commitSequence: nat)
      ensures this.store == store && this.streamId == streamId
      ensures this.committed == committed && this.commitSequence == commitSequence
      ensures uncommitted == [] && headers == map[]
    {
      this.store := store;
      this.streamId := streamId;
      this.committed := committed;
      this.commitSequence := commitSequence;
      uncommitted := [];
      headers := map[];
    }

    /** `Add`: stage one event. */
    method Add(e: EventMessage<E>)
      modifies this
      ensures uncommitted == old(uncommitted) + [e]
      ensures committed == old(committed) && commitSequence == old(commitSequence) && headers == old(headers)
    {
      uncommitted := uncommitted + [e];
    }

    /** `UncommittedHeaders[key] = value`. */
    method SetHeader(key: string, value: string)
      modifies this
      ensures headers == old(headers)[key := value]
      ensures committed == old(committed) && commitSequence == old(commitSequence) && uncommitted == old(uncommitted)
    {
      headers := headers[key := value];
    }

    /** `ClearChanges`: drop the staged events and headers. */
    method ClearChanges()
      modifies this
      ensures uncommitted == [] && headers == map[]
      ensures committed == old(committed) && commitSequence == old(commitSequence)
    {
      uncommitted := [];
      headers := map[];
    }

    /** `CommitChanges(commitId)`: an accepted commit appends the staged events to the store and to this stream. */
    method CommitChanges(commitId: Guid, fault: Option<string>) returns (o: CommitOutcome)
      modifies this, store
      ensures o == CommitStatus(old(store.streams), streamId, old(commitSequence), commitId, fault)
      ensures store.streams == AfterCommit(old(store.streams), streamId, old(commitSequence), commitId, old(uncommitted), fault)
      ensures o == Committed ==> && committed == old(committed) + old(uncommitted)
                                 && commitSequence == old(commitSequence) + 1
                                 && uncommitted == [] && headers == map[]
      ensures o != Committed ==> && committed == old(committed) && commitSequence == old(commitSequence)
                                 && uncommitted == old(uncommitted) && headers == old(headers)
    {
      o := CommitStatus(store.streams, streamId, commitSequence, commitId, fault);
      store.streams := AfterCommit(store.streams, streamId, commitSequence, commitId, uncommitted, fault);
      if o == Committed {
        committed := committed + uncommitted;
        commitSequence := commitSequence + 1;
        uncommitted := [];
        headers := map[];
      }
    }
  }
}
