/**
  * `main`: a fresh queue between one producer and one consumer. In this
  * sequential model the producer runs to its sentinel, then the consumer
  * drains the queue. When the listing names each document id once, the
  * consumer only clears directories of documents the producer has already
  * handled, so each side makes the same calls in the same order as in the
  * threaded program, over the same page answers. A repeated id is the
  * exception, and the page answers are inputs here although in the threaded
  * program they can shift as the consumer tags documents (see the README).
  */
module Pipeline {
  import opened Results
  import opened Tracker
  import opened Cache
  import opened Jobs
  import opened Producer
  import opened Consumer

  /** The jobs the producer enqueues, in order. */
  function EnqueuedJobs(outcomes: seq<DocOutcome>): (jobs: seq<Job>)
    ensures |jobs| == |JobItems(outcomes)|
    ensures forall k :: 0 <= k < |jobs| ==> JobItems(outcomes)[k] == Some(jobs[k])
  {
    var items := JobItems(outcomes);
    seq(|items|, k requires 0 <= k < |items| => items[k].value)
  }

  /** The consumer takes exactly the producer's jobs and stops at its sentinel. */
  lemma {:induction false} SentinelAfterJobs(outcomes: seq<DocOutcome>)
    ensures UntilSentinel(JobItems(outcomes) + [None]) == EnqueuedJobs(outcomes)
  {
    var items := JobItems(outcomes) + [None];
    var jobs := UntilSentinel(items);
    UntilSentinelPrefix(items);
    assert None in items by {
      assert items[|items| - 1] == None;
    }
    assert |jobs| == |items| - 1;
    assert forall k :: 0 <= k < |jobs| ==> Some(jobs[k]) == items[k];
  }

  /**
    * Counted once per listed document: a skip or a producer failure by the
    * producer, every job by the consumer.
    */
  lemma EveryDocCountedOnce(responses: seq<Result<Listing>>, outcomes: seq<DocOutcome>, successes: seq<bool>)
    requires |successes| == |JobItems(outcomes)|
    ensures var events := FetchEvents(responses) + ProducerEvents(outcomes) + ConsumerEvents(successes);
      && CountDone(events) == |outcomes|
      && CountFailed(events) == CountProducerFailures(outcomes) + CountFalse(successes)
  {
    ProducerAccounting(outcomes);
    ConsumerAccounting(successes);
    var f := FetchEvents(responses);
    assert CountDone(f) == 0 && CountFailed(f) == 0 by {
      if f != [] {
        assert f[..0] == [];
      }
    }
    CountsOfConcat(f, ProducerEvents(outcomes));
    CountsOfConcat(f + ProducerEvents(outcomes), ConsumerEvents(successes));
  }

  /** Only the first page of the listing sets the total; every later call is an `increment_done`. */
  lemma TotalFromFirstPage(history: seq<Event>, responses: seq<Result<Listing>>, outcomes: seq<DocOutcome>,
                           successes: seq<bool>)
    ensures var events := history + FetchEvents(responses) + ProducerEvents(outcomes) + ConsumerEvents(successes);
      LastTotal(events, 0)
        == if responses != [] && responses[0].Ok? then responses[0].value.count else LastTotal(history, 0)
  {
    var rest := ProducerEvents(outcomes) + ConsumerEvents(successes);
    ProducerEventsAreDone(outcomes);
    ConsumerEventsDone(successes);
    LastTotalIgnoresDone(history + FetchEvents(responses), rest, 0);
    ConcatAssoc(history + FetchEvents(responses), ProducerEvents(outcomes), ConsumerEvents(successes));
    if FetchEvents(responses) == [] {
      assert history + FetchEvents(responses) == history;
    }
  }

  lemma {:induction false} ProducerEventsAreDone(outcomes: seq<DocOutcome>)
    ensures forall k :: 0 <= k < |ProducerEvents(outcomes)| ==> ProducerEvents(outcomes)[k].Done?
    decreases |outcomes|
  {
    if outcomes != [] {
      ProducerEventsAreDone(outcomes[..|outcomes| - 1]);
    }
  }

  /** The tracker's counters after the whole run, from the calls both sides make. */
  lemma PipelineTally(history: seq<Event>, responses: seq<Result<Listing>>, outcomes: seq<DocOutcome>,
                      successes: seq<bool>)
    requires |successes| == |JobItems(outcomes)|
    ensures var events := history + FetchEvents(responses) + ProducerEvents(outcomes) + ConsumerEvents(successes);
      && CountDone(events) == CountDone(history) + |outcomes|
      && CountFailed(events) == CountFailed(history) + CountProducerFailures(outcomes) + CountFalse(successes)
      && LastTotal(events, 0)
           == if responses != [] && responses[0].Ok? then responses[0].value.count else LastTotal(history, 0)
  {
    var f, p, c := FetchEvents(responses), ProducerEvents(outcomes), ConsumerEvents(successes);
    EveryDocCountedOnce(responses, outcomes, successes);
    ConcatAssoc(history + f, p, c);
    ConcatAssoc(history, f, p + c);
    ConcatAssoc(f, p, c);
    CountsOfConcat(history, f + p + c);
    TotalFromFirstPage(history, responses, outcomes, successes);
  }

  /** `PipelineTally`, read off a tracker that has seen exactly those calls. */
  lemma TrackerAfterRun(t: StatusTracker, history: seq<Event>, responses: seq<Result<Listing>>,
                        outcomes: seq<DocOutcome>, successes: seq<bool>)
    requires t.Valid()
    requires |successes| == |JobItems(outcomes)|
    requires t.history == history + FetchEvents(responses) + ProducerEvents(outcomes) + ConsumerEvents(successes)
    ensures t.completed == CountDone(history) + |outcomes|
    ensures t.failed == CountFailed(history) + CountProducerFailures(outcomes) + CountFalse(successes)
    ensures t.totalToProcess
              == if responses != [] && responses[0].Ok? then responses[0].value.count else LastTotal(history, 0)
  {
    TrackerCounts(t);
    PipelineTally(history, responses, outcomes, successes);
  }

  /**
    * `main`: run the producer into a fresh queue, then the consumer until the
    * sentinel. Every listed document is counted as completed exactly once, the
    * failures are those of the producer and of the consumer, the total is the
    * first page's count, and the queue ends empty.
    */
  method RunPipeline(responses: seq<Result<Listing>>, cache: CacheManager, tracker: StatusTracker, env: Services,
                     tagId: TagId)
    returns (downloads: seq<int>, requests: seq<Request>, queue: JobQueue)
    requires tracker.Valid()
    modifies cache, tracker
    ensures tracker.Valid()
    ensures fresh(queue) && queue.items == []
    ensures var produced := ProduceSpec(cache.cacheDir, old(cache.entries), Listed(responses), env, tagId);
      var consumed := ConsumeSpec(cache.cacheDir, produced.entries, EnqueuedJobs(produced.outcomes), env, tagId);
      && downloads == DownloadedIds(Listed(responses), produced.outcomes)
      && cache.entries == consumed.entries
      && requests == consumed.requests
      && tracker.completed == old(tracker.completed) + |Listed(responses)|
      && tracker.failed == old(tracker.failed) + CountProducerFailures(produced.outcomes)
                           + CountFalse(consumed.successes)
      && tracker.totalToProcess
           == if responses != [] && responses[0].Ok? then responses[0].value.count else old(tracker.totalToProcess)
  {
    ghost var history0 := tracker.history;
    ghost var produced := ProduceSpec(cache.cacheDir, cache.entries, Listed(responses), env, tagId);
    ghost var consumed := ConsumeSpec(cache.cacheDir, produced.entries, EnqueuedJobs(produced.outcomes), env, tagId);
    TrackerCounts(tracker);
    queue := new JobQueue();
    downloads := Produce(responses, cache, queue, tracker, env, tagId);
    ghost var items := JobItems(produced.outcomes);
    assert [] + items == items;
    assert queue.items == items + [None];
    SentinelAfterJobs(produced.outcomes);
    requests := Consume(queue, cache, tracker, env, tagId);
    TrackerAfterRun(tracker, history0, responses, produced.outcomes, consumed.successes);
  }
}
