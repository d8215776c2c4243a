/** The page-limiting part of `PDFProcessor.to_images`. */
module Pdf {
  import opened Results

  /** `CONFIG["PAGE_LIMIT"]`: how many pages of each document are sent to OCR. */
  const PageLimit: int := 3

  /** Python's `s[:k]`: a negative `k` counts from the end. */
  function SliceTo<T>(s: seq<T>, k: int): (r: seq<T>)
    ensures |r| == if k >= 0 then Min(k, |s|) else Max(0, |s| + k)
    ensures r == s[..|r|]
  {
    if k >= 0 then (if k <= |s| then s[..k] else s)
    else if |s| + k >= 0 then s[..|s| + k]
    else []
  }

  function Min(a: int, b: int): int {
    if a <= b then a else b
  }

  function Max(a: int, b: int): int {
    if a >= b then a else b
  }

  /** The page images handed on, and how many pages the document has in all. */
  datatype PageImages = PageImages(images: seq<Bytes>, totalPages: nat)

  /**
    * `to_images(pdf, page_limit)` given the rasterized pages of the document:
    * the first `pageLimit` pages in their original order and the full page count.
    */
  function ToImages(pages: seq<Bytes>, pageLimit: int): (r: PageImages)
    ensures r.totalPages == |pages|
    ensures |r.images| <= |pages| && r.images == pages[..|r.images|]
    ensures pageLimit >= 0 ==> |r.images| == Min(pageLimit, |pages|)
    ensures pageLimit < 0 ==> |r.images| == if |pages| + pageLimit >= 0 then |pages| + pageLimit else 0
  {
    PageImages(SliceTo(pages, pageLimit), |pages|)
  }

  /** With the configured limit at most three pages are kept, whatever the document's length. */
  lemma ConfiguredLimit(pages: seq<Bytes>)
    ensures |ToImages(pages, PageLimit).images| <= 3
    ensures |pages| <= 3 ==> ToImages(pages, PageLimit).images == pages
  {
  }
}
