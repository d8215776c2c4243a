/**
  * The consumer loop of `main`: take jobs off the queue until the `None`
  * sentinel; for each, OCR every image, write the text back as a new PDF and as
  * the document's content, tag the document done and drop its cache directory.
  */
module Consumer {
  import opened Results
  import opened Decimal
  import opened Strings
  import opened Tracker
  import opened Cache
  import opened Jobs

  /** Python's `str.isspace` for one character: the characters `str.strip()` removes. */
  predicate IsSpace(c: char) {
    var n := c as int;
    (9 <= n <= 13) || (28 <= n <= 32) || n == 0x85 || n == 0xA0 || n == 0x1680
    || (0x2000 <= n <= 0x200A) || n == 0x2028 || n == 0x2029 || n == 0x202F || n == 0x205F || n == 0x3000
  }

  /** `s.lstrip()`. */
  function TrimStart(s: string): (r: string)
    ensures |r| <= |s| && r == s[|s| - |r|..]
    ensures r == [] || !IsSpace(r[0])
    ensures forall k :: 0 <= k < |s| - |r| ==> IsSpace(s[k])
    decreases |s|
  {
    if s != [] && IsSpace(s[0]) then TrimStart(s[1..]) else s
  }

  /** `s.rstrip()`. */
  function TrimEnd(s: string): (r: string)
    ensures |r| <= |s| && r == s[..|r|]
    ensures r == [] || !IsSpace(r[|r| - 1])
    ensures forall k :: |r| <= k < |s| ==> IsSpace(s[k])
    decreases |s|
  {
    if s != [] && IsSpace(s[|s| - 1]) then TrimEnd(s[..|s| - 1]) else s
  }

  /** How many whitespace characters `lstrip` removes from the front of `s`. */
  function Lead(s: string): nat {
    |s| - |TrimStart(s)|
  }

  /** `s.strip()`: the text between the leading and the trailing whitespace. */
  function Strip(s: string): (r: string)
    ensures |r| <= |s|
    ensures r == [] || (!IsSpace(r[0]) && !IsSpace(r[|r| - 1]))
    ensures r == [] <==> forall k :: 0 <= k < |s| ==> IsSpace(s[k])
  {
    var t := TrimStart(s);
    assert t != [] ==> t[0] == s[|s| - |t|];
    TrimEnd(t)
  }

  /**
    * The stripped text is the stretch of `s` after its leading whitespace and
    * before its trailing whitespace; with the non-space ends above, nothing
    * else qualifies.
    */
  lemma StripBetweenWhitespace(s: string)
    ensures Lead(s) + |Strip(s)| <= |s| && Strip(s) == s[Lead(s)..Lead(s) + |Strip(s)|]
    ensures forall k :: 0 <= k < Lead(s) ==> IsSpace(s[k])
    ensures forall k :: Lead(s) + |Strip(s)| <= k < |s| ==> IsSpace(s[k])
  {
    var t := TrimStart(s);
    assert Strip(s) == TrimEnd(t);
    TrimmedWithin(s, t, Lead(s), Strip(s));
  }

  /** A prefix `r` of the suffix `t == s[i..]`, followed in `t` by spaces only, sits at `i` in `s`. */
  lemma TrimmedWithin(s: string, t: string, i: nat, r: string)
    requires i <= |s| && t == s[i..]
    requires |r| <= |t| && r == t[..|r|]
    requires forall k :: |r| <= k < |t| ==> IsSpace(t[k])
    ensures i + |r| <= |s| && r == s[i..i + |r|]
    ensures forall k :: i + |r| <= k < |s| ==> IsSpace(s[k])
  {
    SliceOfSuffix(s, i, i, i + |r|);
    forall k | i + |r| <= k < |s|
      ensures IsSpace(s[k])
    {
      assert s[k] == t[k - i];
    }
  }

  /** Stripping twice is stripping once. */
  lemma StripIdempotent(s: string)
    ensures Strip(Strip(s)) == Strip(s)
  {
    var r := Strip(s);
    if r != [] {
      assert TrimStart(r) == r;
      assert TrimEnd(r) == r;
    }
  }

  /**
    * `ocr_image` never raises: a reply's `response` field, stripped (empty when
    * the field is missing), or the exception's message wrapped as `[Error: …]`.
    */
  function OcrText(reply: Result<Option<string>>): (t: string)
    ensures reply.Ok? ==> t == [] || (!IsSpace(t[0]) && !IsSpace(t[|t| - 1]))
    ensures reply.Ok? && reply.value.None? ==> t == []
    ensures reply.Ok? && reply.value.Some? ==> t == Strip(reply.value.value)
    ensures reply.Err? ==> |t| == |reply.error| + 9 && t[..8] == "[Error: " && t[8..|t| - 1] == reply.error
                           && t[|t| - 1] == ']'
  {
    match reply
    case Err(e) => "[Error: " + e + "]"
    case Ok(None) => ""
    case Ok(Some(text)) => Strip(text)
  }

  /** The texts of the images, one per image, in order. */
  function OcrTexts(env: Services, images: seq<Bytes>): (texts: seq<string>)
    ensures |texts| == |images|
    ensures forall k :: 0 <= k < |images| ==> texts[k] == OcrText(env.ocr(images[k]))
  {
    seq(|images|, k requires 0 <= k < |images| => OcrText(env.ocr(images[k])))
  }

  const FooterStart: string := "\n\n--- OCR Footer: "
  const FooterMiddle: string := " of "
  const FooterEnd: string := " pages processed ---"

  /** The footer naming how many images were read out of how many pages. */
  function Footer(imageCount: int, totalPages: int): (f: string)
    ensures |f| > |FooterStart| + |FooterEnd|
    ensures f[..|FooterStart|] == FooterStart && f[|f| - |FooterEnd|..] == FooterEnd
  {
    FooterStart + IntToString(imageCount) + FooterMiddle + IntToString(totalPages) + FooterEnd
  }

  /** The new content of a document: the texts joined by blank lines, then the footer. */
  function FinalContent(texts: seq<string>, totalPages: int): (c: string)
    ensures var f := Footer(|texts|, totalPages); |f| <= |c| && c[|c| - |f|..] == f
  {
    Join("\n\n", texts) + Footer(|texts|, totalPages)
  }

  /** Equal strings with a common prefix have equal remainders. */
  lemma CancelPrefix(p: string, a: string, b: string)
    requires p + a == p + b
    ensures a == b
  {
    assert a == (p + a)[|p|..] && b == (p + b)[|p|..];
  }

  /** A printed number followed by text starting with a space splits in one way only. */
  lemma NumberThenSpace(a: int, b: int, x: string, y: string)
    requires x != [] && x[0] == ' ' && y != [] && y[0] == ' '
    requires IntToString(a) + x == IntToString(b) + y
    ensures a == b && x == y
  {
    var sa, sb := IntToString(a), IntToString(b);
    assert (sa + x)[|sa|] == ' ' && (sb + y)[|sb|] == ' ';
    assert |sa| == |sb|;
    assert sa == (sa + x)[..|sa|] && sb == (sb + y)[..|sb|];
    IntToStringInjective(a, b);
    CancelPrefix(sa, x, y);
  }

  /** The footer read as its pieces, grouped from the right. */
  lemma FooterPieces(n: int, t: int)
    ensures Footer(n, t) == FooterStart + (IntToString(n) + (FooterMiddle + (IntToString(t) + FooterEnd)))
  {
    var a, b, c, d, e := FooterStart, IntToString(n), FooterMiddle, IntToString(t), FooterEnd;
    ConcatAssoc(a + b + c, d, e);
    ConcatAssoc(a + b, c, d + e);
    ConcatAssoc(a, b, c + (d + e));
  }

  /** The footer determines both numbers it reports. */
  lemma FooterInjective(n1: int, t1: int, n2: int, t2: int)
    requires Footer(n1, t1) == Footer(n2, t2)
    ensures n1 == n2 && t1 == t2
  {
    var y1, y2 := IntToString(t1) + FooterEnd, IntToString(t2) + FooterEnd;
    var x1, x2 := FooterMiddle + y1, FooterMiddle + y2;
    FooterPieces(n1, t1);
    FooterPieces(n2, t2);
    CancelPrefix(FooterStart, IntToString(n1) + x1, IntToString(n2) + x2);
    NumberThenSpace(n1, n2, x1, x2);
    CancelPrefix(FooterMiddle, y1, y2);
    NumberThenSpace(t1, t2, FooterEnd, FooterEnd);
  }

  /**
    * The content holds every text at its place in the join, and ends with the
    * footer that reports the number of texts and the page count.
    */
  lemma ContentLayout(texts: seq<string>, totalPages: int)
    ensures var c := FinalContent(texts, totalPages);
      var f := Footer(|texts|, totalPages);
      && |f| <= |c| && c[|c| - |f|..] == f
      && forall k :: 0 <= k < |texts| ==>
           Offset("\n\n", texts, k) + |texts[k]| <= |c|
           && c[Offset("\n\n", texts, k)..Offset("\n\n", texts, k) + |texts[k]|] == texts[k]
  {
    var j := Join("\n\n", texts);
    var c := FinalContent(texts, totalPages);
    assert c[..|j|] == j;
    forall k | 0 <= k < |texts|
      ensures Offset("\n\n", texts, k) + |texts[k]| <= |c|
      ensures c[Offset("\n\n", texts, k)..Offset("\n\n", texts, k) + |texts[k]|] == texts[k]
    {
      JoinPart("\n\n", texts, k);
      assert c[Offset("\n\n", texts, k)..Offset("\n\n", texts, k) + |texts[k]|]
          == j[Offset("\n\n", texts, k)..Offset("\n\n", texts, k) + |texts[k]|];
    }
  }

  ghost predicate NoDuplicates<T>(s: seq<T>) {
    forall i, j :: 0 <= i < j < |s| ==> s[i] != s[j]
  }

  /** The distinct elements of `s`, each at its first occurrence. */
  function Dedup(s: seq<TagId>): (r: seq<TagId>)
    ensures forall x :: x in r <==> x in s
    ensures NoDuplicates(r)
    ensures |r| <= |s|
    decreases |s|
  {
    if s == [] then []
    else
      var prev := Dedup(s[..|s| - 1]);
      var last := s[|s| - 1];
      assert s == s[..|s| - 1] + [last];
      if last in prev then prev else prev + [last]
  }

  /** `list(set(job['tags'] + [tag_id]))`: the job's tags and the done tag, each once. */
  function DoneTags(tags: seq<TagId>, tagId: TagId): (r: seq<TagId>)
    ensures tagId in r
    ensures forall t :: t in tags ==> t in r
    ensures forall t :: t in r ==> t == tagId || t in tags
    ensures NoDuplicates(r)
  {
    Dedup(tags + [tagId])
  }

  /** A call the consumer makes on the document store. */
  datatype Request =
    | ReplaceFile(id: int, pdf: Bytes)
    | UpdateDocument(id: int, content: string, tags: seq<TagId>)

  /** Whether a job succeeded, the calls made for it, and the cache afterwards. */
  datatype Processed = Processed(success: bool, requests: seq<Request>, entries: map<string, DocDir>)

  /**
    * The `try` block for one job, after its texts are read: build the PDF,
    * replace the file (its boolean answer is not looked at), update content and
    * tags, then clear the cache; the first exception ends the block as a failure.
    */
  function ProcessJob(cacheDir: string, entries: map<string, DocDir>, job: Job, texts: seq<string>,
                      env: Services, tagId: TagId): (p: Processed)
    ensures p.success <==>
      (env.fromText(texts).Ok? && env.replaceFile(job.id, env.fromText(texts).value).Ok?
       && env.updateDocument(job.id, FinalContent(texts, job.totalPages), DoneTags(job.tags, tagId)).Ok?)
    ensures p.success ==> p.entries == entries - {DocPath(cacheDir, job.id)}
    ensures !p.success ==> p.entries == entries
    ensures p.success ==>
      && |p.requests| == 2
      && p.requests[0] == ReplaceFile(job.id, env.fromText(texts).value)
      && p.requests[1] == UpdateDocument(job.id, FinalContent(texts, job.totalPages), DoneTags(job.tags, tagId))
  {
    match env.fromText(texts)
    case Err(_) => Processed(false, [], entries)
    case Ok(pdf) =>
      var replace := ReplaceFile(job.id, pdf);
      match env.replaceFile(job.id, pdf)
      case Err(_) => Processed(false, [replace], entries)
      case Ok(_) =>
        var update := UpdateDocument(job.id, FinalContent(texts, job.totalPages), DoneTags(job.tags, tagId));
        match env.updateDocument(job.id, update.content, update.tags)
        case Err(_) => Processed(false, [replace, update], entries)
        case Ok(_) => Processed(true, [replace, update], entries - {DocPath(cacheDir, job.id)})
  }

  /** Only whether `replace_file` raised matters, not the boolean it returns. */
  lemma ReplaceAnswerIgnored(cacheDir: string, entries: map<string, DocDir>, job: Job, texts: seq<string>,
                             env: Services, other: Services, tagId: TagId)
    requires other.fromText == env.fromText && other.updateDocument == env.updateDocument
    requires forall id, pdf :: other.replaceFile(id, pdf).Ok? == env.replaceFile(id, pdf).Ok?
    ensures ProcessJob(cacheDir, entries, job, texts, other, tagId) == ProcessJob(cacheDir, entries, job, texts, env, tagId)
  {
  }

  /**
    * After a successful job the document carries the done tag and its other
    * tags once each, its content reports its page counts, its cache directory
    * is gone and every other document's directory is untouched.
    */
  lemma SuccessfulJob(cacheDir: string, entries: map<string, DocDir>, job: Job, texts: seq<string>,
                      env: Services, tagId: TagId, otherId: int)
    requires ProcessJob(cacheDir, entries, job, texts, env, tagId).success
    requires otherId != job.id
    ensures var p := ProcessJob(cacheDir, entries, job, texts, env, tagId);
      var u := p.requests[1];
      && tagId in u.tags && (forall t :: t in job.tags ==> t in u.tags) && NoDuplicates(u.tags)
      && u.content[|u.content| - |Footer(|texts|, job.totalPages)|..] == Footer(|texts|, job.totalPages)
      && DocPath(cacheDir, job.id) !in p.entries
      && (DocPath(cacheDir, otherId) in p.entries <==> DocPath(cacheDir, otherId) in entries)
      && (DocPath(cacheDir, otherId) in entries ==>
            p.entries[DocPath(cacheDir, otherId)] == entries[DocPath(cacheDir, otherId)])
  {
    ContentLayout(texts, job.totalPages);
    DocPathInjective(cacheDir, otherId, job.id);
  }

  /** The jobs ahead of the first `None` on the queue. */
  function UntilSentinel(items: seq<Option<Job>>): (jobs: seq<Job>)
    ensures |jobs| <= |items|
    ensures None in items ==> |jobs| < |items| && items[|jobs|] == None
    decreases |items|
  {
    if items == [] || items[0].None? then []
    else
      assert None in items ==> None in items[1..];
      [items[0].value] + UntilSentinel(items[1..])
  }

  /** The jobs taken are the items ahead of the first `None`, in order. */
  lemma {:induction false} UntilSentinelPrefix(items: seq<Option<Job>>)
    ensures var jobs := UntilSentinel(items);
      forall k :: 0 <= k < |jobs| ==> items[k] == Some(jobs[k])
    decreases |items|
  {
    if items != [] && items[0].Some? {
      UntilSentinelPrefix(items[1..]);
    }
  }

  /** While jobs remain, the queue's front is the next job; after the last one, it is the sentinel. */
  lemma SentinelAhead(items: seq<Option<Job>>, i: nat)
    requires None in items && i <= |UntilSentinel(items)|
    ensures i < |items|
    ensures items[i] == if i < |UntilSentinel(items)| then Some(UntilSentinel(items)[i]) else None
  {
    UntilSentinelPrefix(items);
  }

  /** One `queue.get()` by the consumer: the next job, or the sentinel once every job has been taken. */
  method NextItem(queue: JobQueue, ghost items: seq<Option<Job>>, ghost i: nat) returns (item: Option<Job>)
    requires None in items && i <= |UntilSentinel(items)|
    requires queue.items == items[i..]
    modifies queue
    ensures i < |items|
    ensures item == if i < |UntilSentinel(items)| then Some(UntilSentinel(items)[i]) else None
    ensures queue.items == items[i + 1..]
  {
    SentinelAhead(items, i);
    assert queue.items[0] == items[i];
    item := queue.Get();
    assert queue.items == items[i + 1..];
  }

  /** The outcomes of a prefix of the jobs: successes, calls made, and the cache. */
  datatype ConsumerRun = ConsumerRun(successes: seq<bool>, requests: seq<Request>, entries: map<string, DocDir>)

  /** The consumer loop over the first `n` jobs: each job's outcome comes from `StepAt`, threading the cache. */
  function ConsumeUpTo(cacheDir: string, entries: map<string, DocDir>, jobs: seq<Job>, n: nat, env: Services,
                       tagId: TagId): (r: ConsumerRun)
    requires n <= |jobs|
    ensures |r.successes| == n
    decreases n, 0
  {
    if n == 0 then ConsumerRun([], [], entries)
    else
      var prev := ConsumeUpTo(cacheDir, entries, jobs, n - 1, env, tagId);
      var p := StepAt(cacheDir, entries, jobs, n - 1, env, tagId);
      ConsumerRun(prev.successes + [p.success], prev.requests + p.requests, p.entries)
  }

  /** Job `n` is OCRed, then processed against the cache the first `n` jobs left behind. */
  function StepAt(cacheDir: string, entries: map<string, DocDir>, jobs: seq<Job>, n: nat, env: Services,
                  tagId: TagId): (p: Processed)
    requires n < |jobs|
    decreases n, 1
  {
    var prev := ConsumeUpTo(cacheDir, entries, jobs, n, env, tagId);
    ProcessJob(cacheDir, prev.entries, jobs[n], OcrTexts(env, jobs[n].images), env, tagId)
  }

  /** The consumer loop over all of `jobs`. */
  function ConsumeSpec(cacheDir: string, entries: map<string, DocDir>, jobs: seq<Job>, env: Services,
                       tagId: TagId): (r: ConsumerRun)
    ensures |r.successes| == |jobs|
  {
    ConsumeUpTo(cacheDir, entries, jobs, |jobs|, env, tagId)
  }

  /** One `increment_done(success)` call per job. */
  function ConsumerEvents(successes: seq<bool>): (events: seq<Event>)
    ensures |events| == |successes|
    decreases |successes|
  {
    if successes == [] then []
    else ConsumerEvents(successes[..|successes| - 1]) + [Done(successes[|successes| - 1])]
  }

  /** Every consumer call is an `increment_done`, carrying that job's success. */
  lemma {:induction false} ConsumerEventsDone(successes: seq<bool>)
    ensures forall k :: 0 <= k < |successes| ==> ConsumerEvents(successes)[k] == Done(successes[k])
    decreases |successes|
  {
    if successes != [] {
      ConsumerEventsDone(successes[..|successes| - 1]);
    }
  }

  /** Number of failed jobs. */
  function CountFalse(successes: seq<bool>): nat
    decreases |successes|
  {
    if successes == [] then 0
    else CountFalse(successes[..|successes| - 1]) + (if successes[|successes| - 1] then 0 else 1)
  }

  /** Every job is counted once as completed, and once more as failed exactly when it failed. */
  lemma {:induction false} ConsumerAccounting(successes: seq<bool>)
    ensures CountDone(ConsumerEvents(successes)) == |successes|
    ensures CountFailed(ConsumerEvents(successes)) == CountFalse(successes)
    decreases |successes|
  {
    if successes != [] {
      var n := |successes| - 1;
      ConsumerAccounting(successes[..n]);
      assert ConsumerEvents(successes)[..n] == ConsumerEvents(successes[..n]);
    }
  }

  /** One more job extends the run by its `ProcessJob`. */
  lemma ConsumeStep(cacheDir: string, entries0: map<string, DocDir>, jobs: seq<Job>, i: nat, env: Services,
                    tagId: TagId, history0: seq<Event>, history: seq<Event>, requests: seq<Request>,
                    entries: map<string, DocDir>)
    requires i < |jobs|
    requires var prev := ConsumeUpTo(cacheDir, entries0, jobs, i, env, tagId);
      var p := ProcessJob(cacheDir, prev.entries, jobs[i], OcrTexts(env, jobs[i].images), env, tagId);
      && history == history0 + ConsumerEvents(prev.successes) + [Done(p.success)]
      && requests == prev.requests + p.requests
      && entries == p.entries
    ensures var run := ConsumeUpTo(cacheDir, entries0, jobs, i + 1, env, tagId);
      && history == history0 + ConsumerEvents(run.successes)
      && requests == run.requests
      && entries == run.entries
  {
    var prev := ConsumeUpTo(cacheDir, entries0, jobs, i, env, tagId);
    var p := ProcessJob(cacheDir, prev.entries, jobs[i], OcrTexts(env, jobs[i].images), env, tagId);
    var run := ConsumeUpTo(cacheDir, entries0, jobs, i + 1, env, tagId);
    assert p == StepAt(cacheDir, entries0, jobs, i, env, tagId);
    assert run.successes == prev.successes + [p.success];
    assert run.successes[..i] == prev.successes;
    assert ConsumerEvents(run.successes) == ConsumerEvents(prev.successes) + [Done(p.success)];
    ConcatAssoc(history0, ConsumerEvents(prev.successes), [Done(p.success)]);
  }

  /** The OCR loop of `main`: one `ocr_image` call per image, in order. */
  method OcrAll(env: Services, images: seq<Bytes>) returns (texts: seq<string>)
    ensures texts == OcrTexts(env, images)
  {
    texts := [];
    for k := 0 to |images|
      invariant texts == OcrTexts(env, images[..k])
    {
      texts := texts + [OcrText(env.ocr(images[k]))];
    }
    assert images[..|images|] == images;
  }

  /** The body of the consumer loop for one job: read every image, then the `try` block. */
  method HandleJob(job: Job, cache: CacheManager, tracker: StatusTracker, env: Services, tagId: TagId)
    returns (requests: seq<Request>)
    requires tracker.Valid()
    modifies cache, tracker
    ensures tracker.Valid()
    ensures var p := ProcessJob(cache.cacheDir, old(cache.entries), job, OcrTexts(env, job.images), env, tagId);
      && cache.entries == p.entries
      && requests == p.requests
      && tracker.history == old(tracker.history) + [Done(p.success)]
  {
    var texts := OcrAll(env, job.images);
    ghost var p := ProcessJob(cache.cacheDir, cache.entries, job, texts, env, tagId);
    var content := FinalContent(texts, job.totalPages);
    var pdf := env.fromText(texts);
    if pdf.Err? {
      tracker.IncrementDone(false);
      return [];
    }
    requests := [ReplaceFile(job.id, pdf.value)];
    var replaced := env.replaceFile(job.id, pdf.value);
    if replaced.Err? {
      tracker.IncrementDone(false);
      return;
    }
    var tags := DoneTags(job.tags, tagId);
    requests := requests + [UpdateDocument(job.id, content, tags)];
    var updated := env.updateDocument(job.id, content, tags);
    if updated.Err? {
      tracker.IncrementDone(false);
      return;
    }
    cache.ClearCache(job.id);
    tracker.IncrementDone(true);
  }

  /** The rest of one turn of the consumer loop: handle job `i`, and the run so far grows by it. */
  method HandleNext(job: Job, cache: CacheManager, tracker: StatusTracker, env: Services, tagId: TagId,
                    ghost jobs: seq<Job>, ghost i: nat, ghost entries0: map<string, DocDir>,
                    ghost history0: seq<Event>, requests: seq<Request>)
    returns (more: seq<Request>)
    requires i < |jobs| && job == jobs[i]
    requires tracker.Valid()
    requires var prev := ConsumeUpTo(cache.cacheDir, entries0, jobs, i, env, tagId);
      && cache.entries == prev.entries && requests == prev.requests
      && tracker.history == history0 + ConsumerEvents(prev.successes)
    modifies cache, tracker
    ensures tracker.Valid()
    ensures var run := ConsumeUpTo(cache.cacheDir, entries0, jobs, i + 1, env, tagId);
      && cache.entries == run.entries && more == run.requests
      && tracker.history == history0 + ConsumerEvents(run.successes)
  {
    var done := HandleJob(job, cache, tracker, env, tagId);
    ConsumeStep(cache.cacheDir, entries0, jobs, i, env, tagId, history0, tracker.history, requests + done,
                cache.entries);
    more := requests + done;
  }

  /**
    * The consumer loop: take items off the front of the queue until the `None`
    * sentinel, handling each job in turn. Everything after the sentinel stays
    * on the queue.
    */
  method Consume(queue: JobQueue, cache: CacheManager, tracker: StatusTracker, env: Services, tagId: TagId)
    returns (requests: seq<Request>)
    requires tracker.Valid()
    requires None in queue.items
    modifies queue, cache, tracker
    ensures tracker.Valid()
    ensures var jobs := UntilSentinel(old(queue.items));
      var run := ConsumeSpec(cache.cacheDir, old(cache.entries), jobs, env, tagId);
      && cache.entries == run.entries
      && requests == run.requests
      && tracker.history == old(tracker.history) + ConsumerEvents(run.successes)
      && queue.items == old(queue.items)[|jobs| + 1..]
  {
    ghost var items0 := queue.items;
    ghost var jobs := UntilSentinel(items0);
    ghost var entries0 := cache.entries;
    ghost var history0 := tracker.history;
    requests := [];
    ghost var i := 0;
    ghost var run := ConsumerRun([], [], entries0);
    while true
      invariant 0 <= i <= |jobs|
      invariant queue.items == items0[i..]
      invariant tracker.Valid()
      invariant run == ConsumeUpTo(cache.cacheDir, entries0, jobs, i, env, tagId)
      invariant cache.entries == run.entries && requests == run.requests
      invariant tracker.history == history0 + ConsumerEvents(run.successes)
      decreases |queue.items|
    {
      var item := NextItem(queue, items0, i);
      if item.None? {
        break;
      }
      requests := HandleNext(item.value, cache, tracker, env, tagId, jobs, i, entries0, history0, requests);
      i := i + 1;
      run := ConsumeUpTo(cache.cacheDir, entries0, jobs, i, env, tagId);
    }
  }
}
