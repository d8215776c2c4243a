/**
  * The on-disk page cache (`CacheManager` in run.py): one directory per
  * document id under the cache directory, holding `page_<i>.png` for each saved
  * page image and `meta.json` with the declared page count.
  */
module Cache {
  import opened Results
  import opened Decimal
  import opened LexOrder

  /** `os.path.join(a, b)` on POSIX paths. */
  function PathJoin(a: string, b: string): string {
    if |b| > 0 && b[0] == '/' then b
    else if a == [] || a[|a| - 1] == '/' then a + b
    else a + "/" + b
  }

  /** `get_doc_path`: the directory that caches document `docId`. */
  function DocPath(cacheDir: string, docId: int): string {
    PathJoin(cacheDir, IntToString(docId))
  }

  /** What `DocPath` puts in front of the printed id. */
  function DirPrefix(cacheDir: string): (p: string)
    ensures |p| >= |cacheDir| && p[..|cacheDir|] == cacheDir
    ensures p == [] || p[|p| - 1] == '/'
  {
    if cacheDir == [] || cacheDir[|cacheDir| - 1] == '/' then cacheDir else cacheDir + "/"
  }

  /**
    * An absolute second part replaces the first; otherwise the result is the
    * first part, then `/` unless the first part is empty or already ends in
    * one, then the second.
    * Either way the result ends with the second part.
    */
  lemma PathJoinShape(a: string, b: string)
    ensures var r := PathJoin(a, b);
      && (|b| > 0 && b[0] == '/' ==> r == b)
      && (!(|b| > 0 && b[0] == '/') ==> r == DirPrefix(a) + b)
      && |r| >= |b| && r[|r| - |b|..] == b
  {
  }

  /**
    * A document's directory is the cache directory, followed by `/` unless it
    * is empty or already ends in one, then the printed id.
    */
  lemma DocPathShape(cacheDir: string, docId: int)
    ensures DocPath(cacheDir, docId) == DirPrefix(cacheDir) + IntToString(docId)
  {
    assert IsDigit(IntToString(docId)[0]) || IntToString(docId)[0] == '-';
  }

  /** Different documents are cached in different directories. */
  lemma DocPathInjective(cacheDir: string, a: int, b: int)
    ensures DocPath(cacheDir, a) == DocPath(cacheDir, b) <==> a == b
  {
    var p := DirPrefix(cacheDir);
    var sa, sb := IntToString(a), IntToString(b);
    assert sa[0] != '/' by {
      if a >= 0 {
        assert IsDigit(NatToString(a)[0]);
      } else {
        assert sa[0] == '-';
      }
    }
    assert sb[0] != '/' by {
      if b >= 0 {
        assert IsDigit(NatToString(b)[0]);
      } else {
        assert sb[0] == '-';
      }
    }
    assert DocPath(cacheDir, a) == p + sa && DocPath(cacheDir, b) == p + sb;
    if p + sa == p + sb {
      assert sa == (p + sa)[|p|..] && sb == (p + sb)[|p|..];
      IntToStringInjective(a, b);
    }
  }

  /** The file name `save_to_cache` gives to page `i`. */
  function PageName(i: nat): string {
    "page_" + NatToString(i) + ".png"
  }

  /** A page's file name is `page_`, the page number in decimal, then `.png`. */
  lemma PageNameParts(i: nat)
    ensures var name := PageName(i);
      && |name| >= 10 && name[..5] == "page_" && name[|name| - 4..] == ".png"
      && DigitsValue(name[5..|name| - 4]) == i
  {
    var name := PageName(i);
    assert name[5..|name| - 4] == NatToString(i);
  }

  predicate EndsWithPng(name: string) {
    |name| >= 4 && name[|name| - 4..] == ".png"
  }

  lemma PageNameIsPng(i: nat)
    ensures EndsWithPng(PageName(i))
  {
    var n := PageName(i);
    assert n[|n| - 4..] == ".png";
  }

  lemma PageNameInjective(i: nat, j: nat)
    ensures PageName(i) == PageName(j) <==> i == j
  {
    var a, b := PageName(i), PageName(j);
    if a == b {
      assert NatToString(i) == a[5..|a| - 4];
      assert NatToString(j) == b[5..|b| - 4];
      NatToStringInjective(i, j);
    }
  }

  /** The names of the first `n` pages. */
  ghost function PageNames(n: nat): set<string> {
    set i | 0 <= i < n :: PageName(i)
  }

  /** A document's cache directory: every file but `meta.json`, and `meta.json`'s page count if present. */
  datatype DocDir = DocDir(files: map<string, Bytes>, meta: Option<int>)

  /** What `load_from_cache` returns. */
  datatype Loaded = Loaded(images: seq<Bytes>, totalPages: int)

  /** One more page adds one new name. */
  lemma PageNamesSnoc(k: nat)
    ensures PageNames(k + 1) == PageNames(k) + {PageName(k)}
    ensures PageName(k) !in PageNames(k)
  {
    forall i | 0 <= i < k
      ensures PageName(i) != PageName(k)
    {
      PageNameInjective(i, k);
    }
    assert PageNames(k + 1) == PageNames(k) + {PageName(k)};
  }

  /** Writing `page_0.png` … `page_{n-1}.png` over the files already present. */
  function WritePages(files: map<string, Bytes>, images: seq<Bytes>): (r: map<string, Bytes>)
    ensures forall name :: name in r <==> name in files || name in PageNames(|images|)
    ensures forall i :: 0 <= i < |images| ==> PageName(i) in r && r[PageName(i)] == images[i]
    ensures forall name :: name in files && name !in PageNames(|images|) ==> r[name] == files[name]
    decreases |images|
  {
    if images == [] then files
    else
      var k := |images| - 1;
      var prev := WritePages(files, images[..k]);
      PageNamesSnoc(k);
      prev[PageName(k) := images[k]]
  }

  lemma WritePagesStep(files: map<string, Bytes>, images: seq<Bytes>, i: nat)
    requires i < |images|
    ensures WritePages(files, images[..i + 1]) == WritePages(files, images[..i])[PageName(i) := images[i]]
  {
    assert images[..i + 1][..i] == images[..i];
  }

  /** The cache after `save_to_cache(doc, images, total_pages)` wrote into directory `path`. */
  function SaveEntry(entries: map<string, DocDir>, path: string, images: seq<Bytes>, totalPages: int)
    : (r: map<string, DocDir>)
    ensures path in r && r[path].meta == Some(totalPages)
  {
    var before := if path in entries then entries[path].files else map[];
    entries[path := DocDir(WritePages(before, images), Some(totalPages))]
  }

  /**
    * Saving touches only directory `path`: it holds every page under its name,
    * the other directories are as they were, and no directory disappears.
    */
  lemma SaveEntryEffect(entries: map<string, DocDir>, path: string, images: seq<Bytes>, totalPages: int)
    ensures var r := SaveEntry(entries, path, images, totalPages);
      && (forall p :: p in r <==> p in entries || p == path)
      && (forall p :: p in entries && p != path ==> r[p] == entries[p])
      && (forall i :: 0 <= i < |images| ==> PageName(i) in r[path].files && r[path].files[PageName(i)] == images[i])
  {
  }

  /** The `.png` files of a directory. */
  function PngNames(files: map<string, Bytes>): set<string> {
    set name | name in files && EndsWithPng(name)
  }

  /** The contents of the named files, in the order named. */
  function ReadAll(files: map<string, Bytes>, names: seq<string>): (r: seq<Bytes>)
    requires forall name :: name in names ==> name in files
    ensures |r| == |names|
    ensures forall i :: 0 <= i < |names| ==> r[i] == files[names[i]]
  {
    seq(|names|, i requires 0 <= i < |names| => files[names[i]])
  }

  /**
    * `load_from_cache` on directory `path`: every `.png` file in Python's string
    * order, then the page count from `meta.json`; a missing directory or a missing
    * `meta.json` raises.
    */
  ghost function LoadEntry(entries: map<string, DocDir>, path: string): (r: Result<Loaded>)
    ensures r.Ok? <==> path in entries && entries[path].meta.Some?
    ensures r.Ok? ==> |r.value.images| == |PngNames(entries[path].files)|
                      && r.value.totalPages == entries[path].meta.value
  {
    if path !in entries then Err("No such file or directory: " + path)
    else
      var d := entries[path];
      var names := Sorted(PngNames(d.files));
      match d.meta
      case None => Err("No such file or directory: meta.json")
      case Some(n) => Ok(Loaded(ReadAll(d.files, names), n))
  }

  /** The first `n` page names in page order. */
  function PageList(n: nat): (r: seq<string>)
    ensures |r| == n
    ensures forall i :: 0 <= i < n ==> r[i] == PageName(i)
  {
    seq(n, i requires 0 <= i < n => PageName(i))
  }

  /** Up to ten pages, the names sort in page order: `page_0.png` < … < `page_9.png`. */
  lemma SingleDigitPagesSorted(n: nat)
    requires n <= 10
    ensures StrictlySorted(PageList(n))
  {
    var s := PageList(n);
    forall i | 0 <= i < n - 1
      ensures Less(s[i], s[i + 1])
    {
      assert NatToString(i) == [DigitChar(i)] && NatToString(i + 1) == [DigitChar(i + 1)];
      assert s[i] == "page_" + ([DigitChar(i)] + ".png");
      assert s[i + 1] == "page_" + ([DigitChar(i + 1)] + ".png");
      LessCommonPrefix("page_", [DigitChar(i)] + ".png", [DigitChar(i + 1)] + ".png");
    }
    ChainSorted(s);
  }

  lemma PngNamesOfFreshSave(images: seq<Bytes>)
    ensures PngNames(WritePages(map[], images)) == PageNames(|images|)
  {
    forall i | 0 <= i < |images| {
      PageNameIsPng(i);
    }
  }

  lemma PageListElements(n: nat)
    ensures forall name :: name in PageList(n) <==> name in PageNames(n)
  {
    forall name | name in PageNames(n)
      ensures name in PageList(n)
    {
      var i :| 0 <= i < n && name == PageName(i);
      assert PageList(n)[i] == name;
    }
  }

  /** Reading the pages of a fresh save in page order gives back the images. */
  lemma ReadPagesInOrder(images: seq<Bytes>)
    ensures forall name :: name in PageList(|images|) ==> name in WritePages(map[], images)
    ensures ReadAll(WritePages(map[], images), PageList(|images|)) == images
  {
  }

  /** Up to ten pages, sorting the `.png` names of a fresh save gives page order. */
  lemma FreshSaveSortsInPageOrder(images: seq<Bytes>)
    requires |images| <= 10
    ensures Sorted(PngNames(WritePages(map[], images))) == PageList(|images|)
  {
    var names := PngNames(WritePages(map[], images));
    PngNamesOfFreshSave(images);
    SingleDigitPagesSorted(|images|);
    PageListElements(|images|);
    SortedUnique(PageList(|images|), Sorted(names));
  }

  /**
    * Saving into a directory that does not exist yet and loading it again gives
    * back the page count and, for at most ten pages, exactly the saved images in
    * order.
    */
  lemma SaveThenLoad(entries: map<string, DocDir>, path: string, images: seq<Bytes>, totalPages: int)
    requires path !in entries
    requires |images| <= 10
    ensures path in SaveEntry(entries, path, images, totalPages)
    ensures LoadEntry(SaveEntry(entries, path, images, totalPages), path) == Ok(Loaded(images, totalPages))
  {
    FreshSaveSortsInPageOrder(images);
    ReadPagesInOrder(images);
  }

  /** The page read back `k`-th from an eleven-page save: 0, 1, 10, 2, 3, …, 9. */
  function ElevenIndex(k: nat): (j: nat)
    requires k < 11
    ensures j < 11
  {
    if k < 2 then k else if k == 2 then 10 else k - 1
  }

  /** The order in which an eleven-page save is read back. */
  function ElevenPageOrder(): (r: seq<string>)
    ensures |r| == 11
  {
    seq(11, k requires 0 <= k < 11 => PageName(ElevenIndex(k)))
  }

  /** The three page names the eleven-page order turns on, spelled out. */
  lemma ThreePageNames()
    ensures PageName(1) == "page_1" + ".png" && PageName(10) == "page_1" + "0.png"
    ensures PageName(10) == "page_" + "10.png" && PageName(2) == "page_" + "2.png"
  {
    assert NatToString(1) == "1" && NatToString(2) == "2";
    assert NatToString(10) == NatToString(1) + "0";
  }

  /** `page_1.png` < `page_10.png` < `page_2.png`. */
  lemma PageTenSortsAfterPageOne()
    ensures Less(PageName(1), PageName(10)) && Less(PageName(10), PageName(2))
  {
    ThreePageNames();
    LessCommonPrefix("page_1", ".png", "0.png");
    assert Less(".png", "0.png");
    LessCommonPrefix("page_", "10.png", "2.png");
    assert Less("10.png", "2.png");
  }

  lemma ElevenPageOrderSorted()
    ensures StrictlySorted(ElevenPageOrder())
  {
    var order := ElevenPageOrder();
    var ten := PageList(10);
    SingleDigitPagesSorted(10);
    PageTenSortsAfterPageOne();
    assert Less(ten[0], ten[1]);
    forall i | 0 <= i < |order| - 1
      ensures Less(order[i], order[i + 1])
    {
      if i >= 3 {
        assert order[i] == ten[i - 1] && order[i + 1] == ten[i];
      }
    }
    ChainSorted(order);
  }

  lemma ElevenPageOrderElements()
    ensures forall name :: name in ElevenPageOrder() <==> name in PageNames(11)
  {
    var order := ElevenPageOrder();
    forall name
      ensures name in order <==> name in PageNames(11)
    {
      if name in PageNames(11) {
        var i :| 0 <= i < 11 && name == PageName(i);
        var k := if i < 2 then i else if i == 10 then 2 else i + 1;
        assert order[k] == name;
      }
    }
  }

  /** The images of an eleven-page save, listed in the order they are read back. */
  lemma ElevenImages(images: seq<Bytes>, k: nat)
    requires |images| == 11 && k < 11
    ensures (images[..2] + [images[10]] + images[2..10])[k] == images[ElevenIndex(k)]
  {
  }

  /** Reading the eleven page files in the order 0, 1, 10, 2, …, 9 gives the images in that order. */
  lemma ReadElevenPages(files: map<string, Bytes>, images: seq<Bytes>)
    requires |images| == 11
    requires forall i :: 0 <= i < 11 ==> PageName(i) in files && files[PageName(i)] == images[i]
    ensures forall name :: name in ElevenPageOrder() ==> name in files
    ensures ReadAll(files, ElevenPageOrder()) == images[..2] + [images[10]] + images[2..10]
  {
    var order := ElevenPageOrder();
    var expected := images[..2] + [images[10]] + images[2..10];
    forall k | 0 <= k < 11
      ensures order[k] in files && files[order[k]] == expected[k]
    {
      assert order[k] == PageName(ElevenIndex(k));
      ElevenImages(images, k);
    }
    var read := ReadAll(files, order);
    assert forall k :: 0 <= k < |read| ==> read[k] == expected[k];
  }

  /**
    * With eleven pages the string sort no longer follows the page numbers:
    * `page_10.png` sorts between `page_1.png` and `page_2.png`, so the eleventh
    * image comes back third.
    */
  lemma ElevenPagesLoadOutOfOrder(entries: map<string, DocDir>, path: string, images: seq<Bytes>, totalPages: int)
    requires path !in entries
    requires |images| == 11
    ensures LoadEntry(SaveEntry(entries, path, images, totalPages), path)
         == Ok(Loaded(images[..2] + [images[10]] + images[2..10], totalPages))
  {
    var files := WritePages(map[], images);
    PngNamesOfFreshSave(images);
    var order := ElevenPageOrder();
    ElevenPageOrderSorted();
    ElevenPageOrderElements();
    SortedUnique(order, Sorted(PngNames(files)));
    ReadElevenPages(files, images);
  }

  /** Saving over an existing directory only adds or overwrites page files: nothing is removed. */
  lemma SaveKeepsOlderFiles(entries: map<string, DocDir>, path: string, images: seq<Bytes>, totalPages: int,
                            name: string)
    requires path in entries && name in entries[path].files
    ensures var after := SaveEntry(entries, path, images, totalPages)[path].files;
      name in after && (name !in PageNames(|images|) ==> after[name] == entries[path].files[name])
  {
  }

  class CacheManager {
    const cacheDir: string
    /** The document directories on disk, by path. */
    var entries: map<string, DocDir>

    /** The cache directory with whatever earlier runs left in it. */
    constructor (cacheDir: string, onDisk: map<string, DocDir>)
      ensures this.cacheDir == cacheDir && entries == onDisk
    {
      this.cacheDir := cacheDir;
      entries := onDisk;
    }

    /** `is_cached`: the document's directory exists. */
    predicate IsCached(docId: int)
      reads this
      ensures !IsCached(docId) ==> LoadEntry(entries, DocPath(cacheDir, docId)).Err?
      ensures IsCached(docId) && entries[DocPath(cacheDir, docId)].meta.Some?
              ==> LoadEntry(entries, DocPath(cacheDir, docId)).Ok?
    {
      DocPath(cacheDir, docId) in entries
    }

    /** `save_to_cache`: create the directory if needed, write each page, then `meta.json`. */
    method SaveToCache(docId: int, images: seq<Bytes>, totalPages: int)
      modifies this
      ensures entries == SaveEntry(old(entries), DocPath(cacheDir, docId), images, totalPages)
    {
      var path := DocPath(cacheDir, docId);
      var before: map<string, Bytes> := if path in entries then entries[path].files else map[];
      var written := before;
      for i := 0 to |images|
        invariant written == WritePages(before, images[..i])
        invariant entries == old(entries)
      {
        WritePagesStep(before, images, i);
        written := written[PageName(i) := images[i]];
      }
      assert images[..|images|] == images;
      entries := entries[path := DocDir(written, Some(totalPages))];
    }

    /** `load_from_cache`: read the `.png` files smallest name first, then `meta.json`. */
    method LoadFromCache(docId: int) returns (r: Result<Loaded>)
      ensures r == LoadEntry(entries, DocPath(cacheDir, docId))
      ensures var path := DocPath(cacheDir, docId);
        r.Ok? <==> path in entries && entries[path].meta.Some?
      ensures var path := DocPath(cacheDir, docId);
        r.Ok? ==> |r.value.images| == |PngNames(entries[path].files)|
                  && r.value.totalPages == entries[path].meta.value
    {
      var path := DocPath(cacheDir, docId);
      if path !in entries {
        return Err("No such file or directory: " + path);
      }
      var d := entries[path];
      var remaining := set name | name in d.files && EndsWithPng(name);
      ghost var all := remaining;
      var images: seq<Bytes> := [];
      ghost var names: seq<string> := [];
      while remaining != {}
        invariant all == PngNames(d.files)
        invariant Selected(all, remaining, names)
        invariant images == ReadAll(d.files, names)
        decreases remaining
      {
        MinimumExists(remaining);
        var m :| m in remaining && forall x :: x in remaining && x != m ==> Less(m, x);
        SelectMinimum(all, remaining, names, m);
        images := images + [d.files[m]];
        names := names + [m];
        remaining := remaining - {m};
      }
      SelectionComplete(all, names);
      match d.meta
      case None =>
        r := Err("No such file or directory: meta.json");
      case Some(n) =>
        r := Ok(Loaded(images, n));
    }

    /** `clear_cache`: remove the document's directory if it exists. */
    method ClearCache(docId: int)
      modifies this
      ensures entries == old(entries) - {DocPath(cacheDir, docId)}
    {
      var path := DocPath(cacheDir, docId);
      if path in entries {
        entries := entries - {path};
      }
    }
  }

  /**
    * After `clear_cache(doc)` the document is no longer cached, clearing again
    * changes nothing, and every other document's entry is as it was.
    */
  lemma ClearProperties(cacheDir: string, entries: map<string, DocDir>, docId: int, other: int)
    requires other != docId
    ensures var after := entries - {DocPath(cacheDir, docId)};
      && DocPath(cacheDir, docId) !in after
      && after - {DocPath(cacheDir, docId)} == after
      && (DocPath(cacheDir, other) in after <==> DocPath(cacheDir, other) in entries)
      && (DocPath(cacheDir, other) in entries ==> after[DocPath(cacheDir, other)] == entries[DocPath(cacheDir, other)])
  {
    DocPathInjective(cacheDir, docId, other);
  }
}
