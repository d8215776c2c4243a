/**
  * The producer side of the pipeline: `fetch_all_documents` walks the paged
  * listing, and `producer` turns every listed document into a job, a skip or a
  * failure, then puts one `None` sentinel on the queue.
  */
module Producer {
  import opened Results
  import opened Tracker
  import opened Cache
  import opened Pdf
  import opened Jobs

  /** One page of the listing: the total `count`, this page's `results`, and whether a `next` page exists. */
  datatype Listing = Listing(count: int, results: seq<Doc>, hasNext: bool)

  /**
    * The documents `fetch_all_documents` yields, given the answers to its
    * successive requests: pages are read until one has no `next` link or a
    * request fails (a failed request, or no answer at all, ends the listing).
    */
  function Listed(responses: seq<Result<Listing>>): (docs: seq<Doc>)
    ensures responses == [] || responses[0].Err? ==> docs == []
    ensures responses != [] && responses[0].Ok? ==> responses[0].value.results <= docs
    decreases |responses|
  {
    if responses == [] || responses[0].Err? then []
    else
      var page := responses[0].value;
      page.results + (if page.hasNext then Listed(responses[1..]) else [])
  }

  /** Every listed document comes from a page that was received. */
  lemma {:induction false} ListedFromPages(responses: seq<Result<Listing>>, d: Doc)
    requires d in Listed(responses)
    ensures exists i :: 0 <= i < |responses| && responses[i].Ok? && d in responses[i].value.results
    decreases |responses|
  {
    var page := responses[0].value;
    if d !in page.results {
      ListedFromPages(responses[1..], d);
      var i :| 0 <= i < |responses[1..]| && responses[1..][i].Ok? && d in responses[1..][i].value.results;
      assert responses[i + 1] == responses[1..][i];
    }
  }

  /** The tracker call the listing makes: `set_total(count)` once, from the first page, if it arrives. */
  function FetchEvents(responses: seq<Result<Listing>>): seq<Event> {
    if responses != [] && responses[0].Ok? then [TotalSet(responses[0].value.count)] else []
  }

  /** Reading from page `i` on: that page's documents, then the rest if it links to more. */
  lemma ListedFrom(responses: seq<Result<Listing>>, i: nat)
    requires i < |responses| && responses[i].Ok?
    ensures Listed(responses[i..]) == responses[i].value.results
      + (if responses[i].value.hasNext then Listed(responses[i + 1..]) else [])
  {
    assert responses[i..][1..] == responses[i + 1..];
  }

  /** A listing that ends at page `i`: no page, or a failed request. */
  lemma ListedEnd(responses: seq<Result<Listing>>, i: nat)
    requires i <= |responses| && (i == |responses| || responses[i].Err?)
    ensures Listed(responses[i..]) == []
  {
  }

  /** `fetch_all_documents`: follow the `next` links, setting the total from the first page. */
  method FetchAllDocuments(tracker: StatusTracker, responses: seq<Result<Listing>>) returns (docs: seq<Doc>)
    requires tracker.Valid()
    modifies tracker
    ensures tracker.Valid()
    ensures docs == Listed(responses)
    ensures tracker.history == old(tracker.history) + FetchEvents(responses)
  {
    ghost var events := FetchEvents(responses);
    docs := [];
    var i := 0;
    var more := true;
    while more
      invariant 0 <= i <= |responses|
      invariant tracker.Valid()
      invariant more ==> docs + Listed(responses[i..]) == Listed(responses)
      invariant !more ==> docs == Listed(responses)
      invariant i == 0 && more ==> tracker.history == old(tracker.history)
      invariant i > 0 || !more ==> tracker.history == old(tracker.history) + events
      decreases |responses| - i, more
    {
      if i == |responses| || responses[i].Err? {
        ListedEnd(responses, i);
        assert i == 0 ==> events == [];
        more := false;
      } else {
        var page := responses[i].value;
        if i == 0 {
          assert events == [TotalSet(page.count)];
          tracker.SetTotal(page.count);
        }
        ListedFrom(responses, i);
        ConcatAssoc(docs, page.results, if page.hasNext then Listed(responses[i + 1..]) else []);
        docs := docs + page.results;
        more := page.hasNext;
        i := i + 1;
      }
    }
  }

  /** What became of one listed document. */
  datatype DocOutcome =
    | Skipped                               // already tagged done: counted, not enqueued
    | Enqueued(job: Job, downloaded: bool)  // put on the queue
    | Failed(error: string, downloaded: bool) // the exception caught by the producer

  predicate Downloaded(o: DocOutcome) {
    (o.Enqueued? || o.Failed?) && o.downloaded
  }

  /** A document's outcome and the cache afterwards. */
  datatype Handled = Handled(outcome: DocOutcome, entries: map<string, DocDir>)

  /**
    * The body of `producer`'s loop for one document: skip it if it already
    * carries the done tag; otherwise take its pages from the cache if cached, or
    * download, rasterize (keeping `PageLimit` pages) and save them to the cache;
    * any exception on the way makes it a failure.
    */
  ghost function Handle(cacheDir: string, entries: map<string, DocDir>, doc: Doc, env: Services, tagId: TagId)
    : (h: Handled)
    ensures h.outcome.Skipped? <==> tagId in doc.tags
    ensures !h.outcome.Enqueued? ==> h.entries == entries
  {
    var path := DocPath(cacheDir, doc.id);
    if tagId in doc.tags then Handled(Skipped, entries)
    else if path in entries then
      match LoadEntry(entries, path)
      case Ok(l) => Handled(Enqueued(Job(doc.id, doc.title, l.images, l.totalPages, doc.tags), false), entries)
      case Err(e) => Handled(Failed(e, false), entries)
    else
      match env.download(doc.id)
      case Err(e) => Handled(Failed(e, true), entries)
      case Ok(raw) =>
        match env.rasterize(raw)
        case Err(e) => Handled(Failed(e, true), entries)
        case Ok(pages) =>
          var r := ToImages(pages, PageLimit);
          Handled(Enqueued(Job(doc.id, doc.title, r.images, r.totalPages, doc.tags), true),
                  SaveEntry(entries, path, r.images, r.totalPages))
  }

  /**
    * A cached document is never downloaded and the cache is left as it was; an
    * uncached one is downloaded; a job carries the document's id, title and tags,
    * and its pages and page count are what the cache now returns for it; a
    * freshly rasterized job has at most `PageLimit` pages and was saved.
    */
  lemma HandleOutcome(cacheDir: string, entries: map<string, DocDir>, doc: Doc, env: Services, tagId: TagId)
    ensures var h := Handle(cacheDir, entries, doc, env, tagId);
      && (tagId !in doc.tags && DocPath(cacheDir, doc.id) in entries ==>
            && !Downloaded(h.outcome)
            && h.entries == entries
            && (h.outcome.Enqueued? <==> LoadEntry(entries, DocPath(cacheDir, doc.id)).Ok?))
      && (tagId !in doc.tags && DocPath(cacheDir, doc.id) !in entries ==> Downloaded(h.outcome))
      && (h.outcome.Enqueued? ==>
            && h.outcome.job.id == doc.id && h.outcome.job.title == doc.title && h.outcome.job.tags == doc.tags
            && LoadEntry(h.entries, DocPath(cacheDir, doc.id)) == Ok(Loaded(h.outcome.job.images, h.outcome.job.totalPages)))
      && (h.outcome.Enqueued? && h.outcome.downloaded ==>
            && |h.outcome.job.images| <= PageLimit
            && h.entries == SaveEntry(entries, DocPath(cacheDir, doc.id), h.outcome.job.images, h.outcome.job.totalPages))
  {
    var path := DocPath(cacheDir, doc.id);
    if tagId !in doc.tags && path !in entries {
      var raw := env.download(doc.id);
      if raw.Ok? {
        var pages := env.rasterize(raw.value);
        if pages.Ok? {
          var r := ToImages(pages.value, PageLimit);
          SaveThenLoad(entries, path, r.images, r.totalPages);
        }
      }
    }
  }

  /** The outcomes of a prefix of the listing, and the cache after it. */
  datatype ProducerRun = ProducerRun(outcomes: seq<DocOutcome>, entries: map<string, DocDir>)

  /** How one document is handled, given the cache at its turn. */
  type Step = (map<string, DocDir>, Doc) -> Handled

  /** A loop over `docs` applying `step` to each in turn, threading the cache. */
  function RunSteps(step: Step, entries: map<string, DocDir>, docs: seq<Doc>): (r: ProducerRun)
    ensures |r.outcomes| == |docs|
    decreases |docs|
  {
    if docs == [] then ProducerRun([], entries)
    else
      var prev := RunSteps(step, entries, docs[..|docs| - 1]);
      var h := step(prev.entries, docs[|docs| - 1]);
      ProducerRun(prev.outcomes + [h.outcome], h.entries)
  }

  /** The outcome of document `k` is that of its step on the cache left by the documents before it. */
  lemma {:induction false} RunStepsAt(step: Step, entries: map<string, DocDir>, docs: seq<Doc>, k: nat)
    requires k < |docs|
    ensures RunSteps(step, entries, docs).outcomes[k] == step(RunSteps(step, entries, docs[..k]).entries, docs[k]).outcome
    decreases |docs|
  {
    var n := |docs| - 1;
    if k < n {
      RunStepsAt(step, entries, docs[..n], k);
      assert docs[..n][..k] == docs[..k];
    }
  }

  /** `Handle` as a step. */
  ghost function HandleStep(cacheDir: string, env: Services, tagId: TagId): Step {
    (e: map<string, DocDir>, d: Doc) => Handle(cacheDir, e, d, env, tagId)
  }

  /** `producer`'s loop over `docs`, one `Handle` per document, threading the cache. */
  ghost function ProduceSpec(cacheDir: string, entries: map<string, DocDir>, docs: seq<Doc>, env: Services,
                             tagId: TagId): (r: ProducerRun)
    ensures |r.outcomes| == |docs|
  {
    RunSteps(HandleStep(cacheDir, env, tagId), entries, docs)
  }

  /** The outcome of document `k` is that of `Handle` on the cache left by the documents before it. */
  lemma ProducerOutcomeAt(cacheDir: string, entries: map<string, DocDir>, docs: seq<Doc>,
                          env: Services, tagId: TagId, k: nat)
    requires k < |docs|
    ensures ProduceSpec(cacheDir, entries, docs, env, tagId).outcomes[k]
         == Handle(cacheDir, ProduceSpec(cacheDir, entries, docs[..k], env, tagId).entries, docs[k], env, tagId).outcome
  {
    RunStepsAt(HandleStep(cacheDir, env, tagId), entries, docs, k);
  }

  /** What one outcome puts on the queue: its job, if it was enqueued. */
  function OutcomeItems(o: DocOutcome): (items: seq<Option<Job>>)
    ensures |items| <= 1
    ensures items == [] <==> !o.Enqueued?
  {
    if o.Enqueued? then [Some(o.job)] else []
  }

  /** The tracker call one outcome makes: a skip counts as done, a failure as done and failed. */
  function OutcomeEvents(o: DocOutcome): (events: seq<Event>)
    ensures CountDone(events) == (if o.Enqueued? then 0 else 1)
    ensures CountFailed(events) == (if o.Failed? then 1 else 0)
  {
    var events := if o.Skipped? then [Done(true)] else if o.Failed? then [Done(false)] else [];
    assert events != [] ==> events[..0] == [];
    events
  }

  /** The queue items the outcomes put, in order. */
  function JobItems(outcomes: seq<DocOutcome>): (items: seq<Option<Job>>)
    ensures forall k :: 0 <= k < |items| ==> items[k].Some?
    decreases |outcomes|
  {
    if outcomes == [] then []
    else JobItems(outcomes[..|outcomes| - 1]) + OutcomeItems(outcomes[|outcomes| - 1])
  }

  /** The tracker calls the outcomes make, in order. */
  function ProducerEvents(outcomes: seq<DocOutcome>): seq<Event>
    decreases |outcomes|
  {
    if outcomes == [] then []
    else ProducerEvents(outcomes[..|outcomes| - 1]) + OutcomeEvents(outcomes[|outcomes| - 1])
  }

  /** Number of documents that failed in the producer. */
  function CountProducerFailures(outcomes: seq<DocOutcome>): nat
    decreases |outcomes|
  {
    if outcomes == [] then 0
    else CountProducerFailures(outcomes[..|outcomes| - 1]) + (if outcomes[|outcomes| - 1].Failed? then 1 else 0)
  }

  /** The `download_document` call one document's outcome records: its id, if it was downloaded. */
  function DocDownloads(doc: Doc, o: DocOutcome): (ids: seq<int>)
    ensures |ids| <= 1
    ensures ids == [] <==> !Downloaded(o)
  {
    if Downloaded(o) then [doc.id] else []
  }

  /** The ids passed to `download_document`, in listing order. */
  function DownloadedIds(docs: seq<Doc>, outcomes: seq<DocOutcome>): seq<int>
    requires |docs| == |outcomes|
    decreases |docs|
  {
    if docs == [] then []
    else
      var n := |docs| - 1;
      DownloadedIds(docs[..n], outcomes[..n]) + DocDownloads(docs[n], outcomes[n])
  }

  /** An id is downloaded exactly when some document with that id had a downloading outcome. */
  lemma {:induction false} DownloadedIdsAt(docs: seq<Doc>, outcomes: seq<DocOutcome>, id: int)
    requires |docs| == |outcomes|
    ensures id in DownloadedIds(docs, outcomes)
        <==> exists k :: 0 <= k < |docs| && docs[k].id == id && Downloaded(outcomes[k])
    decreases |docs|
  {
    if docs != [] {
      var n := |docs| - 1;
      DownloadedIdsAt(docs[..n], outcomes[..n], id);
      if id in DownloadedIds(docs, outcomes) && id !in DownloadedIds(docs[..n], outcomes[..n]) {
        assert docs[n].id == id && Downloaded(outcomes[n]);
      }
      if exists k :: 0 <= k < |docs| && docs[k].id == id && Downloaded(outcomes[k]) {
        var k :| 0 <= k < |docs| && docs[k].id == id && Downloaded(outcomes[k]);
        if k < n {
          assert docs[..n][k] == docs[k] && outcomes[..n][k] == outcomes[k];
        }
      }
    }
  }

  /**
    * Per document: exactly the documents already tagged done are skipped; every
    * other one is enqueued as a job carrying its id, title and tags, or fails.
    */
  lemma EachDocOneOutcome(cacheDir: string, entries: map<string, DocDir>, docs: seq<Doc>,
                          env: Services, tagId: TagId, k: nat)
    requires k < |docs|
    ensures var o := ProduceSpec(cacheDir, entries, docs, env, tagId).outcomes[k];
      && (o.Skipped? <==> tagId in docs[k].tags)
      && (tagId !in docs[k].tags ==> o.Enqueued? || o.Failed?)
      && (o.Enqueued? ==> o.job.id == docs[k].id && o.job.title == docs[k].title && o.job.tags == docs[k].tags)
  {
    ProducerOutcomeAt(cacheDir, entries, docs, env, tagId, k);
    HandleOutcome(cacheDir, ProduceSpec(cacheDir, entries, docs[..k], env, tagId).entries, docs[k], env, tagId);
  }

  /**
    * A document whose directory is in the cache when its turn comes is never
    * downloaded; one whose directory is not (and that is not tagged done) is.
    */
  lemma CachedDocsNotDownloaded(cacheDir: string, entries: map<string, DocDir>, docs: seq<Doc>,
                                env: Services, tagId: TagId, k: nat)
    requires k < |docs|
    ensures var before := ProduceSpec(cacheDir, entries, docs[..k], env, tagId).entries;
      var o := ProduceSpec(cacheDir, entries, docs, env, tagId).outcomes[k];
      && (DocPath(cacheDir, docs[k].id) in before || tagId in docs[k].tags ==> !Downloaded(o))
      && (DocPath(cacheDir, docs[k].id) !in before && tagId !in docs[k].tags ==> Downloaded(o))
  {
    ProducerOutcomeAt(cacheDir, entries, docs, env, tagId, k);
    HandleOutcome(cacheDir, ProduceSpec(cacheDir, entries, docs[..k], env, tagId).entries, docs[k], env, tagId);
  }

  /** Every item the outcomes put on the queue is the job of an enqueued outcome. */
  lemma {:induction false} JobItemOrigin(outcomes: seq<DocOutcome>, item: Option<Job>)
    requires item in JobItems(outcomes)
    ensures exists k :: 0 <= k < |outcomes| && outcomes[k].Enqueued? && item == Some(outcomes[k].job)
    decreases |outcomes|
  {
    var n := |outcomes| - 1;
    if item in JobItems(outcomes[..n]) {
      JobItemOrigin(outcomes[..n], item);
      var k :| 0 <= k < n && outcomes[..n][k].Enqueued? && item == Some(outcomes[..n][k].job);
      assert outcomes[k] == outcomes[..n][k];
    } else {
      assert outcomes[n].Enqueued? && item == Some(outcomes[n].job);
    }
  }

  /** No job on the queue carries the done tag. */
  lemma JobsLackDoneTag(cacheDir: string, entries: map<string, DocDir>, docs: seq<Doc>,
                        env: Services, tagId: TagId, item: Option<Job>)
    requires item in JobItems(ProduceSpec(cacheDir, entries, docs, env, tagId).outcomes)
    ensures item.Some? && tagId !in item.value.tags
  {
    var outs := ProduceSpec(cacheDir, entries, docs, env, tagId).outcomes;
    JobItemOrigin(outs, item);
    var k :| 0 <= k < |outs| && outs[k].Enqueued? && item == Some(outs[k].job);
    EachDocOneOutcome(cacheDir, entries, docs, env, tagId, k);
  }

  /** One more document extends the run by its `Handle`: its outcome, its queue items, its tracker calls. */
  lemma ProduceSpecStep(cacheDir: string, entries: map<string, DocDir>, docs: seq<Doc>, env: Services, tagId: TagId)
    requires docs != []
    ensures var prev := ProduceSpec(cacheDir, entries, docs[..|docs| - 1], env, tagId);
      var h := Handle(cacheDir, prev.entries, docs[|docs| - 1], env, tagId);
      var run := ProduceSpec(cacheDir, entries, docs, env, tagId);
      && run == ProducerRun(prev.outcomes + [h.outcome], h.entries)
      && JobItems(run.outcomes) == JobItems(prev.outcomes) + OutcomeItems(h.outcome)
      && ProducerEvents(run.outcomes) == ProducerEvents(prev.outcomes) + OutcomeEvents(h.outcome)
  {
    var prev := ProduceSpec(cacheDir, entries, docs[..|docs| - 1], env, tagId);
    var h := Handle(cacheDir, prev.entries, docs[|docs| - 1], env, tagId);
    assert HandleStep(cacheDir, env, tagId)(prev.entries, docs[|docs| - 1]) == h;
    var outs := prev.outcomes + [h.outcome];
    assert outs[..|outs| - 1] == prev.outcomes;
  }

  /** The loop invariant of `producer` is kept by handling one more document. */
  lemma ProducedStep(cacheDir: string, entries0: map<string, DocDir>, docs: seq<Doc>, i: nat, env: Services,
                     tagId: TagId, items0: seq<Option<Job>>, items: seq<Option<Job>>, history0: seq<Event>,
                     history: seq<Event>, entries: map<string, DocDir>)
    requires i < |docs|
    requires var prev := ProduceSpec(cacheDir, entries0, docs[..i], env, tagId);
      var h := Handle(cacheDir, prev.entries, docs[i], env, tagId);
      && items == items0 + JobItems(prev.outcomes) + OutcomeItems(h.outcome)
      && history == history0 + ProducerEvents(prev.outcomes) + OutcomeEvents(h.outcome)
      && entries == h.entries
    ensures var run := ProduceSpec(cacheDir, entries0, docs[..i + 1], env, tagId);
      && items == items0 + JobItems(run.outcomes)
      && history == history0 + ProducerEvents(run.outcomes)
      && entries == run.entries
  {
    var prev := ProduceSpec(cacheDir, entries0, docs[..i], env, tagId);
    var h := Handle(cacheDir, prev.entries, docs[i], env, tagId);
    assert docs[..i + 1][..i] == docs[..i];
    ProduceSpecStep(cacheDir, entries0, docs[..i + 1], env, tagId);
    var run := ProduceSpec(cacheDir, entries0, docs[..i + 1], env, tagId);
    var js, jo := JobItems(prev.outcomes), OutcomeItems(h.outcome);
    var es, eo := ProducerEvents(prev.outcomes), OutcomeEvents(h.outcome);
    assert JobItems(run.outcomes) == js + jo;
    assert ProducerEvents(run.outcomes) == es + eo;
    ConcatAssoc(items0, js, jo);
    ConcatAssoc(history0, es, eo);
  }

  /** Handling one more document adds its own download, if any, to those before it. */
  lemma DownloadedStep(cacheDir: string, entries0: map<string, DocDir>, docs: seq<Doc>, i: nat, env: Services,
                       tagId: TagId)
    requires i < |docs|
    ensures var prev := ProduceSpec(cacheDir, entries0, docs[..i], env, tagId);
      var h := Handle(cacheDir, prev.entries, docs[i], env, tagId);
      DownloadedIds(docs[..i + 1], ProduceSpec(cacheDir, entries0, docs[..i + 1], env, tagId).outcomes)
        == DownloadedIds(docs[..i], prev.outcomes) + DocDownloads(docs[i], h.outcome)
  {
    var prev := ProduceSpec(cacheDir, entries0, docs[..i], env, tagId);
    var h := Handle(cacheDir, prev.entries, docs[i], env, tagId);
    assert docs[..i + 1][..i] == docs[..i];
    var run := ProduceSpec(cacheDir, entries0, docs[..i + 1], env, tagId);
    assert run.outcomes == prev.outcomes + [h.outcome];
    assert run.outcomes[..i] == prev.outcomes;
  }

  /**
    * The repository's own producer scenario: one listed, untagged document whose
    * PDF cannot be rasterized gives no job and one failed count, so the queue
    * holds only the sentinel.
    */
  lemma FaultyPdfScenario(cacheDir: string, env: Services, raw: Bytes)
    requires env.download(99) == Ok(raw) && env.rasterize(raw).Err?
    ensures var responses := [Ok(Listing(1, [Doc(99, "Kaputtes PDF", [])], false))];
      var run := ProduceSpec(cacheDir, map[], Listed(responses), env, 1065);
      && Listed(responses) == [Doc(99, "Kaputtes PDF", [])]
      && JobItems(run.outcomes) == []
      && ProducerEvents(run.outcomes) == [Done(false)]
  {
    var docs := [Doc(99, "Kaputtes PDF", [])];
    var responses := [Ok(Listing(1, docs, false))];
    assert Listed(responses) == docs;
    ProduceSpecStep(cacheDir, map[], docs, env, 1065);
    assert docs[..0] == [];
    var h := Handle(cacheDir, map[], docs[0], env, 1065);
    assert h.outcome == Failed(env.rasterize(raw).error, true);
  }

  /**
    * Every document is accounted for once: the jobs plus the `increment_done`
    * calls add up to the number of documents, and the failures recorded are the
    * producer's failures.
    */
  lemma {:induction false} ProducerAccounting(outcomes: seq<DocOutcome>)
    ensures |JobItems(outcomes)| + CountDone(ProducerEvents(outcomes)) == |outcomes|
    ensures CountFailed(ProducerEvents(outcomes)) == CountProducerFailures(outcomes)
    decreases |outcomes|
  {
    if outcomes != [] {
      var n := |outcomes| - 1;
      ProducerAccounting(outcomes[..n]);
      CountsOfConcat(ProducerEvents(outcomes[..n]), OutcomeEvents(outcomes[n]));
    }
  }

  /**
    * One pass of `producer`'s loop body, inside its `try`: the effect on the
    * cache, the queue and the tracker is that of `Handle`.
    */
  method HandleDoc(doc: Doc, cache: CacheManager, queue: JobQueue, tracker: StatusTracker, env: Services,
                   tagId: TagId)
    returns (downloads: seq<int>)
    requires tracker.Valid()
    modifies cache, queue, tracker
    ensures tracker.Valid()
    ensures var h := Handle(cache.cacheDir, old(cache.entries), doc, env, tagId);
      && cache.entries == h.entries
      && queue.items == old(queue.items) + OutcomeItems(h.outcome)
      && tracker.history == old(tracker.history) + OutcomeEvents(h.outcome)
      && downloads == DocDownloads(doc, h.outcome)
  {
    downloads := [];
    if tagId in doc.tags {
      tracker.IncrementDone(true);
      return;
    }
    var result: Result<Job>;
    var cached := cache.IsCached(doc.id);
    if cached {
      var loaded := cache.LoadFromCache(doc.id);
      match loaded {
        case Ok(l) =>
          result := Ok(Job(doc.id, doc.title, l.images, l.totalPages, doc.tags));
        case Err(e) =>
          result := Err(e);
      }
    } else {
      var raw := env.download(doc.id);
      downloads := [doc.id];
      if raw.Err? {
        result := Err(raw.error);
      } else {
        var pages := env.rasterize(raw.value);
        if pages.Err? {
          result := Err(pages.error);
        } else {
          var r := ToImages(pages.value, PageLimit);
          cache.SaveToCache(doc.id, r.images, r.totalPages);
          result := Ok(Job(doc.id, doc.title, r.images, r.totalPages, doc.tags));
        }
      }
    }
    match result {
      case Ok(job) =>
        queue.Put(Some(job));
      case Err(_) =>
        tracker.IncrementDone(false);
    }
  }

  /** `producer`'s loop over the listed documents. */
  method HandleAll(docs: seq<Doc>, cache: CacheManager, queue: JobQueue, tracker: StatusTracker, env: Services,
                   tagId: TagId)
    returns (downloads: seq<int>)
    requires tracker.Valid()
    modifies cache, queue, tracker
    ensures tracker.Valid()
    ensures var run := ProduceSpec(cache.cacheDir, old(cache.entries), docs, env, tagId);
      && cache.entries == run.entries
      && queue.items == old(queue.items) + JobItems(run.outcomes)
      && tracker.history == old(tracker.history) + ProducerEvents(run.outcomes)
      && downloads == DownloadedIds(docs, run.outcomes)
  {
    ghost var entries0 := cache.entries;
    ghost var items0 := queue.items;
    ghost var history0 := tracker.history;
    downloads := [];
    var i := 0;
    while i < |docs|
      invariant 0 <= i <= |docs|
      invariant tracker.Valid()
      invariant var run := ProduceSpec(cache.cacheDir, entries0, docs[..i], env, tagId);
        && cache.entries == run.entries
        && queue.items == items0 + JobItems(run.outcomes)
        && tracker.history == history0 + ProducerEvents(run.outcomes)
        && downloads == DownloadedIds(docs[..i], run.outcomes)
    {
      ghost var items := queue.items;
      ghost var history := tracker.history;
      var more := HandleDoc(docs[i], cache, queue, tracker, env, tagId);
      downloads := downloads + more;
      ProducedStep(cache.cacheDir, entries0, docs, i, env, tagId, items0, queue.items, history0, tracker.history,
                   cache.entries);
      DownloadedStep(cache.cacheDir, entries0, docs, i, env, tagId);
      i := i + 1;
    }
    assert docs[..|docs|] == docs;
  }

  /**
    * `producer`: list the documents, handle each one, then put the single `None`
    * sentinel after all jobs, even when nothing was listed.
    */
  method Produce(responses: seq<Result<Listing>>, cache: CacheManager, queue: JobQueue, tracker: StatusTracker,
                 env: Services, tagId: TagId)
    returns (downloads: seq<int>)
    requires tracker.Valid()
    modifies cache, queue, tracker
    ensures tracker.Valid()
    ensures var run := ProduceSpec(cache.cacheDir, old(cache.entries), Listed(responses), env, tagId);
      && cache.entries == run.entries
      && queue.items == old(queue.items) + JobItems(run.outcomes) + [None]
      && tracker.history == old(tracker.history) + FetchEvents(responses) + ProducerEvents(run.outcomes)
      && downloads == DownloadedIds(Listed(responses), run.outcomes)
  {
    var docs := FetchAllDocuments(tracker, responses);
    downloads := HandleAll(docs, cache, queue, tracker, env, tagId);
    queue.Put(None);
  }
}
