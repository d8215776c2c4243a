/**
  * The values passed between the document store, the producer and the
  * consumer, the external services as functions, and the job queue.
  */
module Jobs {
  import opened Results

  /** Tag ids are the integers the document store uses. */
  type TagId = int

  /** One entry of the document listing: `{id, title, tags}`. */
  datatype Doc = Doc(id: int, title: string, tags: seq<TagId>)

  /** What the producer puts on the queue for one document. */
  datatype Job = Job(id: int, title: string, images: seq<Bytes>, totalPages: int, tags: seq<TagId>)

  /**
    * The calls the pipeline makes to code outside this model: the document store
    * (`download_document`, `replace_file`, `update_document`), the rasterizer
    * (`convert_from_bytes`), the OCR model (`ocr_image`'s HTTP request) and the
    * PDF writer (`PDFProcessor.from_text`). `Err` is an exception raised by the call;
    * an OCR reply is `None` when it has no `response` field.
    */
  datatype Services = Services(
    download: int -> Result<Bytes>,
    rasterize: Bytes -> Result<seq<Bytes>>,
    ocr: Bytes -> Result<Option<string>>,
    fromText: seq<string> -> Result<Bytes>,
    replaceFile: (int, Bytes) -> Result<bool>,
    updateDocument: (int, string, seq<TagId>) -> Result<()>)

  /** `queue.Queue` between producer and consumer; `None` is the end-of-work sentinel. */
  class JobQueue {
    var items: seq<Option<Job>>

    constructor ()
      ensures items == []
    {
      items := [];
    }

    /** `put`: append at the back. */
    method Put(item: Option<Job>)
      modifies this
      ensures items == old(items) + [item]
    {
      items := items + [item];
    }

    /** `get`: take from the front (the real queue blocks until something is there). */
    method Get() returns (item: Option<Job>)
      requires items != []
      modifies this
      ensures item == old(items)[0] && items == old(items)[1..]
    {
      item := items[0];
      items := items[1..];
    }
  }
}
