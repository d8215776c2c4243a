# paperless-ai-ocr pipeline, modelled in Dafny

`run.py` of paperless-ai-ocr re-OCRs documents held in a Paperless document
store. A producer thread lists the documents that the paginated query for
documents without the "OCR done" tag returns. For each one it takes page images from a local cache or downloads and
rasterizes the PDF, caches the images, and queues a job. The main thread takes
jobs off the queue. For each job it OCRs every image, writes the text back as a
new PDF and as the document's content, adds the done tag, clears the cache
entry, and counts the job as completed or failed. A shared `StatusTracker`
keeps the progress counters.

This project models that bookkeeping in Dafny and proves what it promises:

- `results.dfy`: `Option`, `Result` (an `Err` is a Python exception), and
  `Bytes`.
- `decimal.dfy`: `str()` of an integer: its decimal digits, which denote the
  integer and differ for different integers.
- `strings.dfy`: `sep.join(parts)` on strings, and where each part and
  separator lands in the result.
- `lexorder.dfy`: Python's string order. `sorted()` of a set of names is the
  unique strictly ascending sequence of those names.
- `tracker.dfy`: `StatusTracker` as a class. A ghost history of calls replays
  to exactly its counters.
- `cache.dfy`: `CacheManager` as a class over a map from directory path to
  directory contents (page files plus `meta.json`). Save, load and clear are
  proved against specification functions. Save-then-load returns the saved
  images for up to ten pages; an eleven-page save comes back out of order.
- `pdf.dfy`: the page limit of `PDFProcessor.to_images`.
- `jobs.dfy`: documents, jobs, the job queue (a class over a sequence), and
  the external services as total functions that may fail.
- `producer.dfy`: `fetch_all_documents` and `producer`, specified per document
  by `Handle` and over the listing by `ProduceSpec`.
- `consumer.dfy`: `ocr_image`, the content and footer string, the tag union,
  and the consumer loop of `main`, specified by `ProcessJob` and `ConsumeSpec`.
- `pipeline.dfy`: `main` as a whole. Every listed document is counted as
  completed exactly once.

The model follows `run.py`: it runs one consumer (the main thread), puts
exactly one `None` sentinel on the queue, and counts failures only in the
tracker.

## Model

| member | source | states |
|---|---|---|
| Tracker.StatusTracker.constructor | run.py:35-38 | A new tracker has total, completed and failed all zero, and an empty call history. |
| Tracker.StatusTracker.SetTotal | run.py:41-43 | `set_total` overwrites the total and leaves completed and failed alone. The counters stay the replay of the call history. |
| Tracker.StatusTracker.IncrementDone | run.py:45-49 | `increment_done` raises completed by exactly 1. It raises failed by 1 exactly when success is false, and leaves the total alone. |
| Tracker.ReplayTally | run.py:41-49 | After any call sequence: completed counts the `increment_done` calls, failed counts the failing ones, and the total is the last `set_total` argument. |
| Tracker.LastTotalIgnoresDone | run.py:41-49 | `increment_done` calls never change the total; only `set_total` does. |
| Tracker.FailedWithinDone | run.py:45-49 | A call sequence never has more failing `increment_done` calls than `increment_done` calls. |
| Tracker.FailedNeverExceedsCompleted | run.py:45-49 | From fresh counters, failed <= completed after any call sequence. |
| Tracker.TrackerFailedWithinCompleted | run.py:34-49 | A tracker used only through its methods always has failed <= completed. |
| Tracker.TrackerCounts | run.py:34-49 | A tracker's counters are determined by the calls made on it. |
| Tracker.TrackerScenario | tests/test_run.py:8-15 | `set_total(5)`, then a success, then a failure, gives total 5, completed 2, failed 1. |
| Decimal.NatToString | run.py:79 | The decimal digits of a natural number: at least one, all digits, no leading zero, exactly one digit below 10, and read most significant first they denote the number. |
| Decimal.IntToString | run.py:70 | `str(i)`: the digits of `i` for `i >= 0`; for negative `i`, a minus sign followed by the digits of `-i`. |
| Decimal.NatToStringInjective | run.py:79 | Different page numbers print differently. |
| Decimal.IntToStringInjective | run.py:70 | Different document ids print differently. |
| Strings.JoinLength | run.py:254 | The join is as long as the parts and the separators between them. |
| Strings.JoinPart | run.py:254 | Each part appears unchanged at its offset in the join. |
| Strings.JoinSeparator | run.py:254 | The separator sits between each part and the next. |
| LexOrder.Less | run.py:87 | `a < b` on strings never holds for equal strings, and a proper prefix always sorts first. |
| LexOrder.LessIrreflexive | run.py:87 | No string sorts before itself. |
| LexOrder.LessTransitive | run.py:87 | The string order is transitive. |
| LexOrder.LessAsymmetric | run.py:87 | Two strings never sort before each other. |
| LexOrder.LessTotal | run.py:87 | Of two different strings, one sorts first. |
| LexOrder.LessCommonPrefix | run.py:87 | A shared prefix does not change the order of two strings. |
| LexOrder.ChainSorted | run.py:87 | Ascending neighbours make a strictly ascending sequence. |
| LexOrder.MinimumExists | run.py:87 | Every non-empty set of names has a least element. |
| LexOrder.SortedUnique | run.py:87 | Two strictly ascending sequences over the same names are equal, so `sorted()` has one answer. |
| LexOrder.Sorted | run.py:87 | `sorted()` of a set of names is strictly ascending, holds exactly those names, and has one entry per name. |
| Cache.PathJoinShape | run.py:70 | `os.path.join(a, b)`: an absolute `b` replaces `a`; otherwise the result is `a`, followed by `/` unless `a` is empty or already ends in one, then `b`. The result always ends with `b`. |
| Cache.DirPrefix | run.py:70 | The directory part of a joined path starts with the cache directory and is empty or ends in `/`. |
| Cache.DocPathShape | run.py:69-70 | `get_doc_path` is the cache directory, followed by `/` unless the directory is empty or already ends in one, then `str(doc_id)`. |
| Cache.DocPathInjective | run.py:69-70 | Two documents share a cache directory if and only if their ids are equal. |
| Cache.PageNameParts | run.py:79 | Page `i`'s file name is `page_`, then digits that denote `i`, then `.png`. |
| Cache.PageNameIsPng | run.py:79 | Every page file name ends in `.png`, so loading picks it up. |
| Cache.PageNameInjective | run.py:79 | Two page file names are equal if and only if their page numbers are. |
| Cache.PageNamesSnoc | run.py:78-80 | Writing one more page adds exactly one new file name. |
| Cache.WritePages | run.py:78-80 | Writing the pages adds `page_i.png` holding image i and keeps every other file unchanged. |
| Cache.SaveEntry | run.py:75-82 | After a save, the document's directory exists and its `meta.json` holds the given page count. |
| Cache.SaveEntryEffect | run.py:75-82 | A save adds only the document's directory, holds page `i`'s image under `page_i.png`, and leaves every other directory as it was. |
| Cache.LoadEntry | run.py:84-93 | Loading succeeds exactly when the directory and its `meta.json` exist; it then returns one image per `.png` file and the stored page count. |
| Cache.SingleDigitPagesSorted | run.py:87 | Up to ten pages, the page file names sort in page order. |
| Cache.PngNamesOfFreshSave | run.py:78-87 | The `.png` files of a fresh save are exactly its page names. |
| Cache.ReadPagesInOrder | run.py:88-90 | Reading a fresh save in page order gives back the saved images. |
| Cache.FreshSaveSortsInPageOrder | run.py:87 | Up to ten pages, sorting a fresh save's `.png` names gives page order. |
| Cache.SaveThenLoad | run.py:75-93 | Saving into a directory that did not exist makes the document cached. For at most ten images, loading then returns exactly the saved images, in order, and the saved page count. |
| Cache.PageTenSortsAfterPageOne | run.py:87 | `page_1.png` < `page_10.png` < `page_2.png`. |
| Cache.ElevenPageOrderSorted | run.py:87 | The order 0, 1, 10, 2, ..., 9 of page names is strictly ascending. |
| Cache.ElevenPageOrderElements | run.py:87 | That order holds exactly the eleven page names. |
| Cache.ReadElevenPages | run.py:88-90 | Reading eleven saved pages in that order gives images 0, 1, 10, 2, ..., 9. |
| Cache.ElevenPagesLoadOutOfOrder | run.py:75-93 | After saving eleven images, loading returns image 10 in third place: the saved order is lost past ten pages. |
| Cache.SaveKeepsOlderFiles | run.py:77-80 | Saving into an existing directory removes no file, and changes only the page files it writes. |
| Cache.CacheManager.constructor | run.py:64-67 | The manager starts with the given cache directory and whatever is already on disk. |
| Cache.CacheManager.IsCached | run.py:72-73 | A document that is not cached cannot be loaded; a cached one whose `meta.json` exists can. |
| Cache.CacheManager.SaveToCache | run.py:75-82 | The document's directory gets its page files written over the old contents, and its page count in `meta.json`. Nothing else changes. |
| Cache.CacheManager.LoadFromCache | run.py:84-93 | Loading succeeds exactly when the directory and its `meta.json` exist. It then returns one image per `.png` file, read in sorted name order, and the stored page count. |
| Cache.CacheManager.ClearCache | run.py:95-98 | Exactly the document's directory is removed, if it exists. |
| Cache.ClearProperties | run.py:95-98 | After clearing, the document is not cached, clearing again changes nothing, and every other document's entry is unchanged. |
| Pdf.SliceTo | run.py:174 | Python's `s[:k]` is a prefix of `s`, of length `min(k, len(s))` for `k >= 0` and `max(0, len(s) + k)` for negative `k`. |
| Pdf.ToImages | run.py:171-180 | The images are the first `page_limit` pages in their original order, with Python slice semantics. The page count is the full length. |
| Pdf.ConfiguredLimit | run.py:215 | With the configured limit of 3, at most three images are kept, and a document of three pages or fewer keeps all of them. |
| Jobs.JobQueue.constructor | run.py:238 | A new queue is empty. |
| Jobs.JobQueue.Put | run.py:218-224 | `put` appends the item at the back. |
| Jobs.JobQueue.Get | run.py:242 | `get` returns the front item and removes it. |
| Producer.Listed | run.py:106-128 | The listing is empty when the first request fails, and otherwise starts with the first page's documents. |
| Producer.ListedFromPages | run.py:121-123 | Every listed document comes from a page that was received. |
| Producer.ListedFrom | run.py:110-125 | Proof step: unfolds the listing one page. From a received page on, the listing is that page's documents, then the next page's if there is a `next` link. |
| Producer.FetchAllDocuments | run.py:106-128 | Following the `next` links yields exactly the listing. The total is set once, from the first page's count, and only if that page arrives. |
| Producer.Handle | run.py:203-227 | A document is skipped exactly when it already carries the done tag. A skip or a failure leaves the cache unchanged. |
| Producer.HandleOutcome | run.py:210-227 | A cached document is never downloaded and leaves the cache as it was; an uncached one is downloaded. A job carries the document's id, title and tags, and the cache now loads back exactly its pages and page count. A downloaded job has at most 3 pages and was saved. |
| Producer.RunSteps | run.py:202-227 | The document loop yields one outcome per document. |
| Producer.RunStepsAt | run.py:202-227 | Document k's outcome is its step applied to the cache left by the documents before it. |
| Producer.ProduceSpec | run.py:202-227 | The producer loop over the listing yields one outcome per document. |
| Producer.ProducerOutcomeAt | run.py:202-227 | Document k's outcome in `producer` is `Handle` on the cache left by the documents before it. |
| Producer.OutcomeItems | run.py:218-224 | An outcome puts at most one item on the queue, and puts one exactly when it is a job. |
| Producer.OutcomeEvents | run.py:206-227 | A skip counts as one completion; a failure counts as one completion and one failure; a job counts nothing yet. |
| Producer.JobItems | run.py:218-224 | Every item the producer puts before the sentinel is a job. |
| Producer.EachDocOneOutcome | run.py:206-227 | Each document is skipped if and only if it is tagged done. Otherwise it becomes a job or a failure, and a job carries the document's id, title and tags. |
| Producer.DocDownloads | run.py:211-214 | One document causes at most one `download_document` call, and causes one exactly when its outcome says it was downloaded. |
| Producer.DownloadedIdsAt | run.py:206-214 | An id is passed to `download_document` exactly when some listed document with that id was downloaded. |
| Producer.DownloadedStep | run.py:206-214 | Proof step: unfolds the downloads one document. One more document adds its own download, if any, after those of the documents before it. |
| Producer.CachedDocsNotDownloaded | run.py:206-216 | A document that is tagged done, or cached when its turn comes, is never downloaded. An untagged, uncached one always is. |
| Producer.JobItemOrigin | run.py:218-224 | Every queued item is the job of one enqueued outcome. |
| Producer.JobsLackDoneTag | run.py:206-224 | No queued job carries the done tag. |
| Producer.ProduceSpecStep | run.py:202-227 | Proof step: unfolds the producer loop one document. One more document extends the outcomes, the queue items and the tracker calls by its own `Handle`. |
| Producer.FaultyPdfScenario | tests/test_run.py:57-92 | One listed document whose PDF cannot be rasterized gives no job and one failed count, so the queue holds only the sentinel. |
| Producer.ProducerAccounting | run.py:206-227 | Jobs plus completions equal the number of documents, and the failures counted are the producer's failures. |
| Producer.HandleDoc | run.py:203-227 | One pass of the loop body changes the cache, the queue and the tracker exactly as `Handle` says. It calls `download_document` with the document's id exactly when `Handle` records a download, so never for a tagged or cached document. |
| Producer.HandleAll | run.py:202-227 | The loop changes the cache, the queue and the tracker as `ProduceSpec` says over all documents. Its `download_document` calls are the ids of the downloaded outcomes, in listing order. |
| Producer.Produce | run.py:201-229 | `producer` leaves the cache as `ProduceSpec` says. It appends every job and then exactly one `None`, even for an empty listing. It makes the listing's `set_total` and one tracker call per skipped or failed document, and downloads exactly the ids of the downloaded outcomes. |
| Consumer.TrimStart | run.py:165 | `lstrip()` drops exactly the leading whitespace. |
| Consumer.TrimEnd | run.py:165 | `rstrip()` drops exactly the trailing whitespace. |
| Consumer.Strip | run.py:165 | `strip()` leaves no whitespace at either end, and is empty exactly when the text is all whitespace. |
| Consumer.StripBetweenWhitespace | run.py:165 | The stripped text is the stretch of the text right after its leading whitespace, followed only by whitespace. |
| Consumer.StripIdempotent | run.py:165 | Stripping twice is stripping once. |
| Consumer.OcrText | run.py:160-167 | `ocr_image` never raises. A reply with a `response` gives that response stripped, and a reply without one gives the empty text; an exception gives `[Error: <message>]`. |
| Consumer.OcrTexts | run.py:248-250 | One text per image, in image order, each the `ocr_image` result for that image. |
| Consumer.OcrAll | run.py:248-250 | The OCR loop yields one `ocr_image` result per image, in image order: exactly the texts `OcrTexts` lists. |
| Consumer.Footer | run.py:253 | The footer starts with the fixed `--- OCR Footer: ` opening and ends with ` pages processed ---`. |
| Consumer.FinalContent | run.py:253-254 | The new content ends with the footer for the number of texts and the page count. |
| Consumer.NumberThenSpace | run.py:253 | A printed number followed by text that starts with a space splits in only one way. |
| Consumer.FooterPieces | run.py:253 | Proof step: regroups the footer's concatenation. The footer is the fixed start, the image count, " of ", the page count and the fixed end. |
| Consumer.FooterInjective | run.py:253 | The footer determines both the image count and the page count it reports. |
| Consumer.ContentLayout | run.py:253-254 | The content holds every text at its place in the blank-line join and ends with the footer for `len(images)` of `total_pages`. |
| Consumer.Dedup | run.py:257 | The result has exactly the input's elements, each once. |
| Consumer.DoneTags | run.py:257 | The tags written hold the done tag and every job tag, nothing else, and no duplicates. |
| Consumer.ProcessJob | run.py:252-262 | A job succeeds exactly when building the PDF, replacing the file and updating the document all succeed. On success, the update carries the joined content with its footer and the tag union, and exactly the job's cache directory is cleared. On failure the cache is unchanged. |
| Consumer.ReplaceAnswerIgnored | run.py:256 | Only whether `replace_file` raised matters, not the boolean it returned. |
| Consumer.SuccessfulJob | run.py:253-259 | After a successful job: the tags written include the done tag and every job tag, once each; the content ends with the footer; the job's cache entry is gone; every other document's entry is unchanged. |
| Consumer.UntilSentinel | run.py:241-243 | With a `None` on the queue, the jobs the consumer takes stop right before the first one. |
| Consumer.UntilSentinelPrefix | run.py:241-243 | Those jobs are the queue's items ahead of the sentinel, in order. |
| Consumer.NextItem | run.py:242-243 | Each `get` takes the front item off the queue: the next job while jobs remain, the sentinel after the last one. |
| Consumer.ConsumeSpec | run.py:241-265 | The consumer loop yields one success flag per job. |
| Consumer.ConsumerEventsDone | run.py:259-262 | Every tracker call the consumer makes is an `increment_done` carrying that job's success. |
| Consumer.ConsumerAccounting | run.py:252-262 | Every job counts as completed once, and as failed exactly when it failed. |
| Consumer.ConsumeStep | run.py:241-265 | Proof step: unfolds the consumer loop one job. One more job extends the tracker calls, the requests and the cache by its own `ProcessJob`. |
| Consumer.HandleJob | run.py:245-262 | One job's OCR loop and `try` block change the cache and the tracker, and make store calls, exactly as `ProcessJob` says. |
| Consumer.HandleNext | run.py:245-262 | Handling the next job takes the cache, the tracker and the calls made from the state after the jobs before it to the state after it. |
| Consumer.Consume | run.py:241-265 | The consumer handles every job ahead of the sentinel, in order, as `ConsumeSpec` says, and stops right after the sentinel. |
| Pipeline.SentinelAfterJobs | run.py:229-243 | The consumer takes exactly the producer's jobs and then meets the sentinel. |
| Pipeline.EveryDocCountedOnce | run.py:206-262 | Over a whole run, completions equal the listed documents; failures are the producer's plus the consumer's. |
| Pipeline.ProducerEventsAreDone | run.py:206-227 | The producer's per-document tracker calls are all `increment_done`. |
| Pipeline.TotalFromFirstPage | run.py:116-119 | The total at the end is the first page's count, or unchanged if the first request failed. |
| Pipeline.PipelineTally | run.py:201-265 | The counters at the end follow from the calls both sides make. |
| Pipeline.RunPipeline | run.py:231-268 | Completed rises by exactly the number of listed documents. Failed rises by the producer's and the consumer's failures. The total is the first page's count, the queue ends empty, and the documents downloaded are exactly those the producer's outcomes record. |

## Left out

- HTTP and JSON: the session, the token header, timeouts and the CSRF cookie exchange in `replace_file` are not modelled. Download, rasterize, OCR, `from_text`, `replace_file` and `update_document` are the `Services` functions, and an `Err` stands for the exception. The listing is the sequence of page answers, in link order.
- Services are deterministic: each `Services` field is a function of its arguments. The real HTTP calls are not. In the model two identical page images always OCR alike, and the same call cannot time out once and succeed another time.
- Missing JSON keys: `data.get("count", 0)`, `data.get("results", [])` and `doc.get('tags', [])` are not modelled. Every listing page and document carries all its fields, and a document without an `id` or `title` is not modelled. In `run.py` that `KeyError` ends the producer thread before it puts the `None` sentinel, so `main` blocks forever in `get`; the model rules this out through `Consume`'s requirement that a `None` is on the queue.
- Threading: the daemon thread, the lock and the bounded `queue.Queue` are not modelled. The producer runs to its sentinel before the consumer starts, and `Get` requires a non-empty queue where the real one blocks. Each side's tracker calls keep their order, and the `set_total` call still precedes every job. This holds when the listing names each document id once.
- Repeated document ids: if the listing names an id twice, far enough apart that the bounded queue (`BUFFER_SIZE` items, 5 by default) makes the producer wait, the real consumer can finish and clear that document's cache before the producer reaches the repeat. The producer then downloads it again, and that download may fail. The sequential model always finds the repeat cached, so for such listings its downloads, final cache and failed count can differ from `run.py`.
- `fetch_all_documents` is a generator that the producer consumes page by page. The model lists every page first, then handles the documents; over the same page answers, the calls and outcomes are the same.
- Page answers are inputs: the model takes the listing's page answers as fixed. In `run.py` each `next` page is requested only when the producer reaches it, and by then the consumer may have tagged earlier documents done. The query excludes those, so the later pages can shift and a page-numbered `next` link can skip untagged documents. Then `completed` ends below the total that `set_total` recorded. The model does not capture such missed documents.
- `print_report`, the progress prints, `tqdm` and `task_done` have no effect on the modelled state and are not modelled.
- `PDFProcessor.from_text`, `convert_from_bytes` and PNG encoding are external calls. Rasterizing gives the already-encoded page images.
- The OCR request body (base64, `prompt.md`, model name) and `load_dotenv` configuration are not modelled.
- Tag ids are integers. Set from the environment, `TAG_ID` is a string in `run.py`, and such a value never equals a document's integer tag; this case is not modelled.
- Consumer.DoneTags: orders the tags by first occurrence; `list(set(...))` in `run.py` has an unspecified order. The contract states only membership and the absence of duplicates.
- Filesystem failures (permissions, full disk, a crash in the middle of a save) and the creation of the cache directory are not modelled. A directory without `meta.json` is modelled, and loading it fails as in `run.py`.
- `meta.json` holds an integer page count; other JSON content is not modelled.
