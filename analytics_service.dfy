/**
 * `AnalyticsService` of src/services/analytics.ts: a buffer of tracked
 * events that is handed off and emptied as soon as it holds `BATCH_SIZE`
 * events. The hand-off itself (a console line standing in for a send to a
 * backend) is recorded in the ghost field `Flushed`, and the ghost field
 * `Tracked` keeps every event ever tracked, so that the buffer's contents can
 * be stated in terms of the whole history.
 */
module Analytics {
  import opened Wrappers

  /** `ANALYTICS_CONFIG.BATCH_SIZE` of src/constants/index.ts. */
  const BatchSize: nat := 10

  /** `AnalyticsEvent` of src/types/index.ts; its free-form `data` record is a string map here. */
  datatype AnalyticsEvent = AnalyticsEvent(eventType: string, timestamp: int, userId: Option<string>, data: map<string, string>)

  /** What a caller passes to `track`: an event without its timestamp. */
  datatype EventInput = EventInput(eventType: string, userId: Option<string>, data: map<string, string>)

  function Stamp(e: EventInput, now: int): AnalyticsEvent
  {
    AnalyticsEvent(e.eventType, now, e.userId, e.data)
  }

  /** All batches joined in order. */
  function Flatten(batches: seq<seq<AnalyticsEvent>>): (r: seq<AnalyticsEvent>)
    ensures (forall b | b in batches :: |b| == BatchSize) ==> |r| == BatchSize * |batches|
  {
    if batches == [] then [] else Flatten(batches[..|batches| - 1]) + batches[|batches| - 1]
  }

  /**
   * Splitting a history into full batches and a remainder shorter than a
   * batch determines both: there are `n / 10` batches and the remainder is the
   * last `n % 10` events.
   */
  lemma BatchesOfHistory(batches: seq<seq<AnalyticsEvent>>, rest: seq<AnalyticsEvent>, history: seq<AnalyticsEvent>)
    requires forall b | b in batches :: |b| == BatchSize
    requires |rest| < BatchSize
    requires Flatten(batches) + rest == history
    ensures |batches| == |history| / BatchSize
    ensures rest == history[|history| - |history| % BatchSize..]
  {
    var n := |history|;
    assert n == BatchSize * |batches| + |rest|;
    assert n / BatchSize == |batches| && n % BatchSize == |rest|;
  }

  class AnalyticsService {
    /** The buffered events, oldest first. */
    var events: seq<AnalyticsEvent>
    /** Every event passed to `track`, oldest first. */
    ghost var Tracked: seq<AnalyticsEvent>
    /** Every batch `flush` has handed off, oldest first. */
    ghost var Flushed: seq<seq<AnalyticsEvent>>

    /** The buffer never reaches a full batch between calls, and nothing is lost or reordered. */
    ghost predicate Valid()
      reads this
    {
      |events| < BatchSize &&
      (forall b | b in Flushed :: |b| == BatchSize) &&
      Flatten(Flushed) + events == Tracked
    }

    constructor ()
      ensures Valid()
      ensures events == [] && Tracked == [] && Flushed == []
    {
      events := [];
      Tracked := [];
      Flushed := [];
    }

    /** `flush`: hands off a copy of the buffer and empties it. */
    method Flush() returns (eventsToSend: seq<AnalyticsEvent>)
      modifies this
      ensures eventsToSend == old(events)
      ensures events == []
      ensures Flushed == old(Flushed) + [old(events)]
      ensures Tracked == old(Tracked)
    {
      eventsToSend := events;
      events := [];
      Flushed := Flushed + [eventsToSend];
    }

    /**
     * `track`: stamps the event with the clock reading `now` and appends it;
     * once the buffer holds a full batch, it is flushed.
     */
    method Track(event: EventInput, now: int)
      requires Valid()
      modifies this
      ensures Valid()
      ensures Tracked == old(Tracked) + [Stamp(event, now)]
      ensures |old(events)| + 1 < BatchSize ==>
                events == old(events) + [Stamp(event, now)] && Flushed == old(Flushed)
      ensures |old(events)| + 1 == BatchSize ==>
                events == [] && Flushed == old(Flushed) + [old(events) + [Stamp(event, now)]]
      ensures |Flushed| == |Tracked| / BatchSize
      ensures events == Tracked[|Tracked| - |Tracked| % BatchSize..]
    {
      events := events + [Stamp(event, now)];
      Tracked := Tracked + [Stamp(event, now)];
      if |events| >= BatchSize {
        var _ := Flush();
      }
      BatchesOfHistory(Flushed, events, Tracked);
    }
  }
}
