/** AhoViewer::ImageList (src/imagelist.h:16-165, src/imagelist.cc): the list
    of images being viewed, the current position in it, the window of images
    around that position whose full pixbufs a loader thread prefetches, and
    the thumbnails a pool of tasks loads into the widget's rows.

    Threads are sequentialised. The cache loader's loads take effect when
    cancel_cache joins it; how many entries it got through before it saw the
    cancel flag is the parameter `progress`. The thumbnail tasks run one
    after another in index order; `cancelAt` says how many of them start
    before clear() raises the thumbnail cancel flag. What the file system
    says about a path is the parameter `Listing`. */
module ImageLists {
  import opened Util
  import opened CacheWindow
  import opened Priority
  import opened CacheOrder
  import opened Widgets
  import opened Thumbnails
  import opened Booru

  datatype Archive = Archive(path: string, extractedPath: string)

  /** The images the list holds: a file of a directory, a file extracted
      from an archive, or a booru post. */
  datatype Image =
    | LocalImage(path: string)
    | ArchiveImage(path: string, archive: Archive)
    | BooruImage(imagePath: string, imageUrl: string, thumbPath: string, thumbUrl: string, tags: seq<string>)

  /** The signals the list emits, in the order it emits them. */
  datatype Signal =
    | Changed(image: Image)
    | Cleared
    | EndOfList
    | ArchiveError(message: string)
    | ThumbnailLoaded
    | ThumbnailsLoaded

  /** What the file tests of load (src/imagelist.cc:59-92) find at a path.
      An archive whose extraction fails has an empty extracted path;
      `siblings` are the archives of its directory in natural order. */
  datatype PathKind =
    | Missing
    | Directory
    | ImageFile(dirName: string)
    | ArchiveFile(extractedPath: string, siblings: seq<string>)
    | Unsupported

  /** A path's kind and the image files of the directory load() lists, in
      natural order. */
  datatype Listing = Listing(kind: PathKind, entries: seq<string>)

  /** The directory whose images load() lists. */
  function DirPath(path: string, kind: PathKind): string
  {
    match kind
    case ImageFile(d) => d
    case ArchiveFile(x, _) => x
    case _ => path
  }

  /** The archive load() opens for `path`, if it is one. */
  function OpenedArchive(path: string, kind: PathKind): Option<Archive>
  {
    if kind.ArchiveFile? then Some(Archive(path, kind.extractedPath)) else None
  }

  /** m_Archive after a failed load: a path that does not exist, is not
      supported or does not extract leaves it alone; otherwise it ends up
      reset, because the empty listing resets it (src/imagelist.cc:94-107). */
  function FailedLoadArchive(path: string, kind: PathKind, before: Option<Archive>): (r: Option<Archive>)
    ensures r == before || r == None
  {
    match kind
    case Missing => before
    case Unsupported => before
    case ArchiveFile(x, _) => if x == "" then before else None
    case _ => None
  }

  /** load() succeeds exactly when the path is a directory, an image or an
      archive that extracts, and the directory holds at least one image. */
  predicate LoadSucceeds(listing: Listing)
  {
    && (listing.kind.Directory? || listing.kind.ImageFile?
        || (listing.kind.ArchiveFile? && listing.kind.extractedPath != ""))
    && listing.entries != []
  }

  /** The message load() reports when it fails (src/imagelist.cc:75, 84,
      90, 106). */
  function LoadError(path: string, listing: Listing): string
  {
    match listing.kind
    case Missing => "File or directory '" + path + "' could not be opened."
    case Unsupported => "'" + path + "' is invalid or not supported."
    case ArchiveFile(x, _) =>
      if x == "" then "Failed to extract '" + path + "'"
      else "No valid image files found in '" + x + "'."
    case _ => "No valid image files found in '" + DirPath(path, listing.kind) + "'."
  }

  /** The image load() creates for an entry. */
  function ImageFor(entry: string, archive: Option<Archive>): Image
  {
    if archive.Some? then ArchiveImage(entry, archive.value) else LocalImage(entry)
  }

  /** The images load() creates for its entries, in order. */
  function ListingImages(entries: seq<string>, archive: Option<Archive>): (r: seq<Image>)
    ensures |r| == |entries| && forall j :: 0 <= j < |entries| ==> r[j] == ImageFor(entries[j], archive)
  {
    seq(|entries|, j requires 0 <= j < |entries| => ImageFor(entries[j], archive))
  }

  /** The index load() starts at (src/imagelist.cc:113-125): the position of
      an opened image file among the entries (the first when it is not
      found); otherwise `index`, where -1 means the last entry. */
  function StartIndex(path: string, dirPath: string, fromArchive: bool, entries: seq<string>, index: int): (k: nat)
    requires entries != [] && -1 <= index < |entries|
    ensures k < |entries|
    ensures path != dirPath && !fromArchive && path in entries ==> entries[k] == path && path !in entries[..k]
    ensures path != dirPath && !fromArchive && path !in entries ==> k == 0
    ensures (path == dirPath || fromArchive) && index == -1 ==> k == |entries| - 1
    ensures (path == dirPath || fromArchive) && index >= 0 ==> k == index
  {
    if path != dirPath && !fromArchive then
      var i := Find(entries, path);
      if i == |entries| then 0 else i
    else if index == -1 then |entries| - 1
    else index
  }

  /** The archive go_next opens after the last image
      (src/imagelist.cc:192-204): the sibling after the first occurrence of
      the current archive, when there is one. */
  function NextArchive(archive: Option<Archive>, autoOpen: bool, siblings: seq<string>): (r: Option<string>)
    ensures r.Some? ==> archive.Some? && autoOpen && archive.value.path in siblings
    ensures archive.Some? && autoOpen ==>
      forall k :: 0 <= k < |siblings| && siblings[k] == archive.value.path && archive.value.path !in siblings[..k] ==>
        r == if k + 1 < |siblings| then Some(siblings[k + 1]) else None
  {
    if archive.Some? && autoOpen then
      var i := Find(siblings, archive.value.path);
      if i + 1 < |siblings| then Some(siblings[i + 1]) else None
    else None
  }

  /** The archive go_previous opens before the first image
      (src/imagelist.cc:216-227): the sibling before the first occurrence of
      the current archive, and the last sibling when the archive is not
      among them, since std::find then yields the end position. */
  function PreviousArchive(archive: Option<Archive>, autoOpen: bool, siblings: seq<string>): (r: Option<string>)
    ensures r.Some? ==> archive.Some? && autoOpen && siblings != []
    ensures archive.Some? && autoOpen ==>
      forall k :: 0 <= k < |siblings| && siblings[k] == archive.value.path && archive.value.path !in siblings[..k] ==>
        r == if k > 0 then Some(siblings[k - 1]) else None
    ensures archive.Some? && autoOpen && siblings != [] && archive.value.path !in siblings ==>
      r == Some(siblings[|siblings| - 1])
  {
    if archive.Some? && autoOpen then
      var i := Find(siblings, archive.value.path);
      if i > 0 then Some(siblings[i - 1]) else None
    else None
  }

  /** The image load(posts, page) creates for a post
      (src/imagelist.cc:156-173). */
  function PostImage(siteUrl: string, post: Post): Image
  {
    BooruImage(post.imagePath, AbsoluteUrl(siteUrl, post.fileUrl), post.thumbPath,
               AbsoluteUrl(siteUrl, post.previewUrl), Tokens(post.tags))
  }

  /** The value of `(size_t)Settings.get_int("BooruLimit")`: a negative int
      wraps around to a very large size. */
  function AsSize(limit: int): (r: int)
    requires -0x8000_0000 <= limit < 0x8000_0000
    ensures 0 <= r < 0x1_0000_0000_0000_0000
    ensures r % 0x1_0000_0000_0000_0000 == limit % 0x1_0000_0000_0000_0000
  {
    if limit < 0 then limit + 0x1_0000_0000_0000_0000 else limit
  }

  /** The images of a page of posts, in order. */
  function PostImages(siteUrl: string, posts: seq<Post>): (r: seq<Image>)
    ensures |r| == |posts| && forall j :: 0 <= j < |posts| ==> r[j] == PostImage(siteUrl, posts[j])
  {
    seq(|posts|, j requires 0 <= j < |posts| => PostImage(siteUrl, posts[j]))
  }

  /** The pixbuf bits of `n` new images. */
  function Unloaded(n: nat): (r: seq<bool>)
    ensures |r| == n && forall j :: 0 <= j < n ==> !r[j]
  {
    seq(n, _ => false)
  }

  lemma PostImagesGrow(siteUrl: string, posts: seq<Post>, j: nat)
    requires j < |posts|
    ensures PostImages(siteUrl, posts[..j + 1]) == PostImages(siteUrl, posts[..j]) + [PostImage(siteUrl, posts[j])]
  {
    assert posts[..j + 1] == posts[..j] + [posts[j]];
  }

  /** The signals of `n` thumbnail tasks that each found no cancel. */
  function Notifications(n: nat): (s: seq<Signal>)
    ensures |s| == n && forall j :: 0 <= j < n ==> s[j] == ThumbnailLoaded
  {
    seq(n, _ => ThumbnailLoaded)
  }

  class ImageList {
    const widget: Widget
    var images: seq<Image>
    var index: nat
    /** m_Cache: the prefetch window in load order, as the loader got it. */
    var cache: seq<int>
    var archive: Option<Archive>
    var archiveEntries: seq<string>
    var thumbnailQueue: seq<PixbufPair>
    /** m_CacheThread != nullptr */
    var cacheLoaderActive: bool
    /** m_CacheCancel->is_cancelled() */
    var cacheCancelled: bool
    /** m_ThumbnailThread != nullptr */
    var thumbnailLoaderActive: bool
    /** m_ThumbnailCancel->is_cancelled() */
    var thumbnailCancelled: bool
    /** Whether image i holds its full pixbuf (load_pixbuf / reset_pixbuf). */
    var fullLoaded: seq<bool>
    var signals: seq<Signal>
    /** The images reset by the last update_cache, in the order reset. */
    ghost var resetLog: seq<int>
    /** The images the last joined cache loader loaded, in the order loaded. */
    ghost var loadLog: seq<int>

    /** Between calls: one pixbuf bit per image, the index inside the list
        (0 when it is empty), the cache a duplicate-free list of image
        indices that is non-empty exactly while a loader is held, and the
        cache cancel flag down. */
    ghost predicate Valid()
      reads this
    {
      && |fullLoaded| == |images|
      && (if images == [] then index == 0 else index < |images|)
      && InRange(cache, |images|)
      && NoDup(cache)
      && cacheLoaderActive == (cache != [])
      && !cacheCancelled
    }

    /** The state a successful load(path, error, idx) leaves
        (src/imagelist.cc:94-147). */
    ghost predicate Loaded(path: string, listing: Listing, idx: int, cacheSize: nat)
      reads this, widget
    {
      var entries := listing.entries;
      var a := OpenedArchive(path, listing.kind);
      && LoadSucceeds(listing) && -1 <= idx < |entries|
      && archive == a
      && images == ListingImages(entries, a)
      && index == StartIndex(path, DirPath(path, listing.kind), a.Some?, entries, idx)
      && cache == LoadOrder(index, cacheSize, |images|)
      && |fullLoaded| == |images| && (forall j :: 0 <= j < |fullLoaded| ==> !fullLoaded[j])
      && |widget.rows| == |entries| && (forall k :: 0 <= k < |widget.rows| ==> widget.rows[k] == Pixbuf.Empty)
      && widget.selected == Some(index)
      && thumbnailLoaderActive
    }

    /** The log of a joined cache loader: the prefix of `oldCache` it got
        through when there was a loader (the cache is non-empty exactly
        then), the previous log when there was none. */
    ghost predicate LoaderJoined(oldCache: seq<int>, oldLog: seq<int>, progress: nat)
      reads this
    {
      loadLog == if oldCache != [] then oldCache[..Min(progress, |oldCache|)] else oldLog
    }

    /** The pixbuf state after update_cache replaced the cache `oldCache`:
        the old loader's prefix was loaded, exactly the old indices the new
        cache lacks were reset, each once, and every other bit is as in
        `oldLoaded`. */
    ghost predicate CacheMoved(oldLoaded: seq<bool>, oldCache: seq<int>, oldLog: seq<int>, progress: nat)
      reads this
    {
      && LoaderJoined(oldCache, oldLog, progress)
      && (forall x :: x in resetLog <==> x in oldCache && x !in cache)
      && NoDup(resetLog)
      && |fullLoaded| == |oldLoaded|
      && (forall x :: 0 <= x < |fullLoaded| ==>
            fullLoaded[x] == (x !in resetLog && (oldLoaded[x] || x in oldCache[..Min(progress, |oldCache|)])))
    }

    /** Between the two states nothing of the list changed: the images, the
        index, the cache and both loaders, the pixbuf bits, the logs and the
        widget. */
    twostate predicate KeepsList()
      reads this, widget
    {
      && images == old(images) && index == old(index) && cache == old(cache)
      && cacheLoaderActive == old(cacheLoaderActive) && thumbnailLoaderActive == old(thumbnailLoaderActive)
      && fullLoaded == old(fullLoaded) && loadLog == old(loadLog) && resetLog == old(resetLog)
      && unchanged(widget)
    }

    /** ImageList::ImageList (src/imagelist.cc:8-23). */
    constructor (w: Widget)
      ensures Valid()
      ensures widget == w && images == [] && index == 0 && cache == [] && archive == None
      ensures archiveEntries == [] && thumbnailQueue == [] && signals == []
      ensures !cacheLoaderActive && !thumbnailLoaderActive && !thumbnailCancelled
    {
      widget := w;
      images := [];
      index := 0;
      cache := [];
      archive := None;
      archiveEntries := [];
      thumbnailQueue := [];
      cacheLoaderActive := false;
      cacheCancelled := false;
      thumbnailLoaderActive := false;
      thumbnailCancelled := false;
      fullLoaded := [];
      signals := [];
      resetLog := [];
      loadLog := [];
    }

    function GetSize(): nat
      reads this
    {
      |images|
    }

    function GetIndex(): nat
      reads this
    {
      index
    }

    function IsEmpty(): (b: bool)
      reads this
      ensures b <==> GetSize() == 0
    {
      images == []
    }

    function FromArchive(): bool
      reads this
    {
      archive.Some?
    }

    function GetCurrent(): Image
      reads this
      requires index < |images|
    {
      images[index]
    }

    /** The body of the cache loader thread (src/imagelist.cc:408-417): it
        loads the entries of its cache in order until it sees the cancel
        flag, which it does after `progress` entries. */
    method RunCacheLoader(progress: nat)
      requires |fullLoaded| == |images| && InRange(cache, |images|)
      modifies this`fullLoaded, this`loadLog
      ensures loadLog == cache[..Min(progress, |cache|)]
      ensures |fullLoaded| == |old(fullLoaded)|
      ensures forall i :: 0 <= i < |fullLoaded| ==> fullLoaded[i] == (old(fullLoaded)[i] || i in loadLog)
    {
      loadLog := [];
      var j := 0;
      while j < |cache|
        invariant 0 <= j <= Min(progress, |cache|)
        invariant loadLog == cache[..j]
        invariant |fullLoaded| == |old(fullLoaded)|
        invariant forall i :: 0 <= i < |fullLoaded| ==> fullLoaded[i] == (old(fullLoaded)[i] || i in loadLog)
      {
        if j >= progress {
          break;
        }
        fullLoaded := fullLoaded[cache[j] := true];
        assert cache[..j + 1] == cache[..j] + [cache[j]];
        loadLog := loadLog + [cache[j]];
        j := j + 1;
      }
    }

    /** ImageList::cancel_cache (src/imagelist.cc:422-434): with a loader,
        raise the cancel flag, join the loader, drop it, lower the flag and
        empty the cache; without one, nothing happens. */
    method CancelCache(progress: nat)
      requires Valid()
      modifies this`cache, this`cacheLoaderActive, this`cacheCancelled, this`fullLoaded, this`loadLog
      ensures Valid()
      ensures cache == [] && !cacheLoaderActive
      ensures !old(cacheLoaderActive) ==> fullLoaded == old(fullLoaded) && loadLog == old(loadLog)
      ensures old(cacheLoaderActive) ==> loadLog == old(cache)[..Min(progress, |old(cache)|)]
      ensures |fullLoaded| == |old(fullLoaded)|
      ensures forall i :: 0 <= i < |fullLoaded| ==>
        fullLoaded[i] == (old(fullLoaded)[i] || i in old(cache)[..Min(progress, |old(cache)|)])
    {
      if cacheLoaderActive {
        cacheCancelled := true;
        RunCacheLoader(progress);
        cacheLoaderActive := false;
        cacheCancelled := false;
        cache := [];
      }
    }

    /** reset_pixbuf for every evicted index (src/imagelist.cc:404-405). */
    method ResetPixbufs(diff: seq<int>)
      requires forall j :: 0 <= j < |diff| ==> 0 <= diff[j] < |fullLoaded|
      modifies this`fullLoaded, this`resetLog
      ensures resetLog == diff
      ensures |fullLoaded| == |old(fullLoaded)|
      ensures forall i :: 0 <= i < |fullLoaded| ==> fullLoaded[i] == (old(fullLoaded)[i] && i !in diff)
    {
      resetLog := [];
      var j := 0;
      while j < |diff|
        invariant 0 <= j <= |diff|
        invariant resetLog == diff[..j]
        invariant |fullLoaded| == |old(fullLoaded)|
        invariant forall i :: 0 <= i < |fullLoaded| ==> fullLoaded[i] == (old(fullLoaded)[i] && i !in diff[..j])
      {
        fullLoaded := fullLoaded[diff[j] := false];
        assert diff[..j + 1] == diff[..j] + [diff[j]];
        resetLog := resetLog + [diff[j]];
        j := j + 1;
      }
      assert diff[..j] == diff;
    }

    /** ImageList::update_cache (src/imagelist.cc:353-420). NextCache
        computes the new cache and the evicted indices, then the old loader
        is cancelled, the evicted pixbufs are reset and a new loader starts
        on the new cache. (The old m_Cache is sorted in place before the
        join; cancel_cache empties it right after, and the old loader walks
        its own copy, so the sort is not observable.) */
    method UpdateCache(cacheSize: nat, progress: nat)
      requires Valid() && index < |images|
      modifies this`cache, this`cacheLoaderActive, this`cacheCancelled, this`fullLoaded, this`loadLog, this`resetLog
      ensures Valid()
      ensures cache == LoadOrder(index, cacheSize, |images|)
      ensures cacheLoaderActive
      ensures resetLog == if old(cache) == [] then [] else Evicted(old(cache), Window(index, cacheSize, |images|), |images|)
      ensures forall i :: i in resetLog <==> i in old(cache) && i !in cache
      ensures NoDup(resetLog)
      ensures LoaderJoined(old(cache), old(loadLog), progress)
      ensures |fullLoaded| == |images|
      ensures forall i :: 0 <= i < |fullLoaded| ==>
        fullLoaded[i] == (i !in resetLog && (old(fullLoaded)[i] || i in old(cache)[..Min(progress, |old(cache)|)]))
    {
      var ordered, diff := NextCache(cacheSize);
      SwapCache(ordered, diff, progress);
    }

    /** The state-changing half of update_cache (src/imagelist.cc:402-419):
        the old loader is cancelled, the pixbufs in `diff` are reset and a
        loader starts on `ordered`, which becomes the cache. */
    method SwapCache(ordered: seq<int>, diff: seq<int>, progress: nat)
      requires Valid() && ordered != [] && InRange(ordered, |images|) && NoDup(ordered)
      requires InRange(diff, |images|)
      modifies this`cache, this`cacheLoaderActive, this`cacheCancelled, this`fullLoaded, this`loadLog, this`resetLog
      ensures Valid() && cache == ordered && cacheLoaderActive && resetLog == diff
      ensures LoaderJoined(old(cache), old(loadLog), progress)
      ensures |fullLoaded| == |images|
      ensures forall i :: 0 <= i < |fullLoaded| ==>
        fullLoaded[i] == (i !in diff && (old(fullLoaded)[i] || i in old(cache)[..Min(progress, |old(cache)|)]))
    {
      CancelCache(progress);
      ResetPixbufs(diff);
      cacheLoaderActive := true;
      cache := ordered;
    }

    /** The computing half of update_cache (src/imagelist.cc:355-400): the
        window around the index in load order, and the indices of the
        current cache it no longer holds, in increasing order and each once. */
    method NextCache(cacheSize: nat) returns (ordered: seq<int>, diff: seq<int>)
      requires Valid() && index < |images|
      ensures ordered == LoadOrder(index, cacheSize, |images|)
      ensures ordered != [] && InRange(ordered, |images|) && NoDup(ordered)
      ensures diff == if cache == [] then [] else Evicted(cache, Window(index, cacheSize, |images|), |images|)
      ensures forall i :: i in diff <==> i in cache && i !in ordered
      ensures NoDup(diff) && InRange(diff, |images|)
    {
      var size := |images|;
      var window := BuildWindow(index, cacheSize, size);
      diff := [];
      if cache != [] {
        diff := Evicted(cache, window, size);
        EvictedLeaveCache(cache, index, cacheSize, size);
      }
      ordered := PriorityOrder(window, index, size);
      LoadOrderShape(index, cacheSize, size);
    }

    /** ImageList::set_current (src/imagelist.cc:338-351). A selection the
        widget reports for the current image is ignored; otherwise the index
        moves, the change is signalled, the cache follows, and the widget's
        selection is set unless the call came from the widget. */
    method SetCurrent(i: nat, fromWidget: bool, cacheSize: nat, progress: nat)
      requires Valid() && i < |images|
      modifies this`index, this`signals, this`cache, this`cacheLoaderActive, this`cacheCancelled
      modifies this`fullLoaded, this`loadLog, this`resetLog, widget`selected
      ensures Valid()
      ensures i == old(index) && fromWidget ==> unchanged(this) && unchanged(widget)
      ensures !(i == old(index) && fromWidget) ==>
        && index == i
        && signals == old(signals) + [Changed(images[i])]
        && cache == LoadOrder(i, cacheSize, |images|)
        && cacheLoaderActive
        && CacheMoved(old(fullLoaded), old(cache), old(loadLog), progress)
        && widget.selected == (if fromWidget then old(widget.selected) else Some(i))
    {
      if i == index && fromWidget {
        return;
      }
      index := i;
      signals := signals + [Changed(images[index])];
      UpdateCache(cacheSize, progress);
      if !fromWidget {
        widget.SetSelected(index);
      }
    }

    /** ImageList::clear (src/imagelist.cc:30-47). The thumbnail queue is
        not emptied. */
    method Clear(progress: nat)
      requires Valid()
      modifies this`cache, this`cacheLoaderActive, this`cacheCancelled, this`fullLoaded, this`loadLog
      modifies this`thumbnailCancelled, this`thumbnailLoaderActive, this`images, this`archive
      modifies this`index, this`signals, widget`rows
      ensures Valid()
      ensures images == [] && index == 0 && archive == None && cache == [] && !cacheLoaderActive
      ensures thumbnailCancelled && !thumbnailLoaderActive
      ensures widget.rows == []
      ensures signals == old(signals) + [Cleared]
      ensures LoaderJoined(old(cache), old(loadLog), progress)
    {
      CancelCache(progress);
      StopThumbnails();
      images := [];
      fullLoaded := [];
      assert this as object != widget as object;
      widget.Clear();
      archive := None;
      index := 0;
      signals := signals + [Cleared];
    }

    /** The thumbnail half of clear (src/imagelist.cc:33-39): the cancel
        flag is raised and stays up, and a running thumbnail loader is
        joined and dropped. */
    method StopThumbnails()
      modifies this`thumbnailCancelled, this`thumbnailLoaderActive
      ensures thumbnailCancelled && !thumbnailLoaderActive
    {
      thumbnailCancelled := true;
      if thumbnailLoaderActive {
        thumbnailLoaderActive := false;
      }
    }

    /** ImageList::load(path, error, index) (src/imagelist.cc:53-150). */
    method Load(path: string, listing: Listing, idx: int, cacheSize: nat, progress: nat) returns (ok: bool, error: string)
      requires Valid()
      requires -1 <= idx && (listing.entries != [] ==> idx < |listing.entries|)
      modifies this`images, this`index, this`cache, this`archive, this`archiveEntries, this`cacheLoaderActive
      modifies this`cacheCancelled, this`thumbnailLoaderActive, this`fullLoaded, this`signals, this`loadLog
      modifies this`resetLog, widget`rows, widget`selected
      ensures Valid()
      ensures ok == LoadSucceeds(listing)
      ensures !ok ==> error == LoadError(path, listing)
      ensures !ok ==> KeepsList() && signals == old(signals)
      ensures !ok ==> archive == FailedLoadArchive(path, listing.kind, old(archive))
      ensures ok ==> Loaded(path, listing, idx, cacheSize) && signals == old(signals) + [Changed(images[index])]
      ensures ok ==> LoaderJoined(old(cache), old(loadLog), progress) && resetLog == []
      ensures archiveEntries ==
        if listing.kind.ArchiveFile? && listing.kind.extractedPath != "" then listing.kind.siblings
        else old(archiveEntries)
    {
      var dirPath;
      ok, error, dirPath := OpenPath(path, listing);
      if !ok {
        return;
      }
      var entries := listing.entries;
      var start := StartIndex(path, dirPath, archive.Some?, entries, idx);
      OpenEntries(entries, start, cacheSize, progress);
    }

    /** The first half of load (src/imagelist.cc:55-108): what the path is,
        the archive it opens, and the directory listing being empty. A
        failure leaves everything but the archive fields as it was. */
    method OpenPath(path: string, listing: Listing) returns (ok: bool, error: string, dirPath: string)
      modifies this`archive, this`archiveEntries
      ensures ok == LoadSucceeds(listing)
      ensures !ok ==> error == LoadError(path, listing)
      ensures ok ==> error == "" && dirPath == DirPath(path, listing.kind)
      ensures archive == if ok then OpenedArchive(path, listing.kind) else FailedLoadArchive(path, listing.kind, old(archive))
      ensures archiveEntries ==
        if listing.kind.ArchiveFile? && listing.kind.extractedPath != "" then listing.kind.siblings
        else old(archiveEntries)
    {
      var found: Option<Archive> := None;
      match listing.kind {
        case Missing =>
          return false, "File or directory '" + path + "' could not be opened.", "";
        case Unsupported =>
          return false, "'" + path + "' is invalid or not supported.", "";
        case Directory =>
          dirPath := path;
        case ImageFile(d) =>
          dirPath := d;
        case ArchiveFile(extracted, siblings) =>
          if extracted == "" {
            return false, "Failed to extract '" + path + "'", "";
          }
          found := Some(Archive(path, extracted));
          archive := found;
          dirPath := extracted;
      }
      if found.None? {
        archive := None;
      } else {
        archiveEntries := listing.kind.siblings;
      }
      if listing.entries == [] {
        archive := None;
        return false, "No valid image files found in '" + dirPath + "'.", dirPath;
      }
      ok, error := true, "";
    }

    /** The second half of a successful load (src/imagelist.cc:127-147): the
        old loader is cancelled, one image per entry replaces the list, the
        widget gets one empty row per image, the thumbnail thread starts and
        the list moves to `start`. */
    method OpenEntries(entries: seq<string>, start: nat, cacheSize: nat, progress: nat)
      requires Valid() && start < |entries|
      modifies this`images, this`index, this`cache, this`cacheLoaderActive, this`cacheCancelled
      modifies this`thumbnailLoaderActive, this`fullLoaded, this`signals, this`loadLog, this`resetLog
      modifies widget`rows, widget`selected
      ensures Valid()
      ensures images == ListingImages(entries, archive)
      ensures index == start && cache == LoadOrder(start, cacheSize, |images|)
      ensures |fullLoaded| == |images| && forall j :: 0 <= j < |fullLoaded| ==> !fullLoaded[j]
      ensures |widget.rows| == |entries| && forall k :: 0 <= k < |widget.rows| ==> widget.rows[k] == Pixbuf.Empty
      ensures widget.selected == Some(start) && thumbnailLoaderActive
      ensures signals == old(signals) + [Changed(images[start])]
      ensures LoaderJoined(old(cache), old(loadLog), progress) && resetLog == []
    {
      PrepareEntries(entries, start, progress);
      ghost var loaded, log := fullLoaded, loadLog;
      SetCurrent(index, false, cacheSize, progress);
      ghost var none: seq<int> := [];
      assert CacheMoved(loaded, none, log, progress);
      assert forall x :: x in resetLog <==> x in none;
      assert NoDup(resetLog);
      SameElementsPermutation(resetLog, none);
    }

    /** Everything load does before set_current (src/imagelist.cc:127-145):
        with the old loader cancelled, the list holds one unloaded image per
        entry, the widget one empty row per image, the index is `start` and
        the thumbnail thread runs. */
    method PrepareEntries(entries: seq<string>, start: nat, progress: nat)
      requires Valid() && start < |entries|
      modifies this`images, this`index, this`cache, this`cacheLoaderActive, this`cacheCancelled
      modifies this`thumbnailLoaderActive, this`fullLoaded, this`loadLog, widget`rows
      ensures Valid() && cache == [] && LoaderJoined(old(cache), old(loadLog), progress)
      ensures images == ListingImages(entries, archive) && index == start
      ensures fullLoaded == Unloaded(|entries|)
      ensures |widget.rows| == |entries| && forall k :: 0 <= k < |widget.rows| ==> widget.rows[k] == Pixbuf.Empty
      ensures thumbnailLoaderActive
    {
      CancelCache(progress);
      ReplaceImages(entries);
      index := start;
      assert this as object != widget as object;
      widget.Clear();
      widget.Reserve(|entries|);
      thumbnailLoaderActive := true;
    }

    /** The image loop of load (src/imagelist.cc:129-144): the list becomes
        one image per entry, none with its full pixbuf. */
    method ReplaceImages(entries: seq<string>)
      modifies this`images, this`fullLoaded
      ensures images == ListingImages(entries, archive)
      ensures fullLoaded == Unloaded(|entries|)
    {
      images := [];
      var j := 0;
      while j < |entries|
        invariant 0 <= j <= |entries|
        invariant images == ListingImages(entries[..j], archive)
      {
        assert ListingImages(entries[..j + 1], archive) == ListingImages(entries[..j], archive) + [ImageFor(entries[j], archive)];
        images := images + [ImageFor(entries[j], archive)];
        j := j + 1;
      }
      assert entries[..j] == entries;
      fullLoaded := Unloaded(|entries|);
    }

    /** load() of a neighbouring archive on behalf of go_next and
        go_previous (src/imagelist.cc:199-203, 223-225): a failure is
        signalled as an archive error. */
    method OpenSibling(path: string, listing: Listing, idx: int, cacheSize: nat, progress: nat) returns (ok: bool)
      requires Valid() && (idx == 0 || idx == -1)
      modifies this`images, this`index, this`cache, this`archive, this`archiveEntries, this`cacheLoaderActive
      modifies this`cacheCancelled, this`thumbnailLoaderActive, this`fullLoaded, this`signals, this`loadLog
      modifies this`resetLog, widget`rows, widget`selected
      ensures Valid()
      ensures ok == LoadSucceeds(listing)
      ensures ok ==> Loaded(path, listing, idx, cacheSize) && signals == old(signals) + [Changed(images[index])]
      ensures ok ==> LoaderJoined(old(cache), old(loadLog), progress) && resetLog == []
      ensures !ok ==> KeepsList() && signals == old(signals) + [ArchiveError(LoadError(path, listing))]
      ensures !ok ==> archive == FailedLoadArchive(path, listing.kind, old(archive))
      ensures archiveEntries ==
        if listing.kind.ArchiveFile? && listing.kind.extractedPath != "" then listing.kind.siblings
        else old(archiveEntries)
    {
      var e;
      ok, e := Load(path, listing, idx, cacheSize, progress);
      if !ok {
        signals := signals + [ArchiveError(e)];
      }
    }

    /** ImageList::go_next (src/imagelist.cc:185-208). `next` is what the
        file system says about the archive after the current one, when
        auto-open reaches for it; which archive that is, NextArchive says. */
    method GoNext(autoOpen: bool, next: Listing, cacheSize: nat, progress: nat)
      requires Valid()
      modifies this`images, this`index, this`cache, this`archive, this`archiveEntries, this`cacheLoaderActive
      modifies this`cacheCancelled, this`thumbnailLoaderActive, this`fullLoaded, this`signals, this`loadLog
      modifies this`resetLog, widget`rows, widget`selected
      ensures Valid()
      ensures old(index) + 1 < |old(images)| ==>
        && images == old(images) && index == old(index) + 1
        && signals == old(signals) + [Changed(images[index])]
        && cache == LoadOrder(index, cacheSize, |images|)
        && CacheMoved(old(fullLoaded), old(cache), old(loadLog), progress)
        && widget.selected == Some(index) && widget.rows == old(widget.rows)
        && archive == old(archive) && archiveEntries == old(archiveEntries)
        && thumbnailLoaderActive == old(thumbnailLoaderActive)
      ensures old(index) + 1 >= |old(images)| ==>
        var target := NextArchive(old(archive), autoOpen, old(archiveEntries));
        && (target.None? ==>
              KeepsList() && archive == old(archive) && archiveEntries == old(archiveEntries)
              && signals == old(signals) + [EndOfList])
        && (target.Some? && !LoadSucceeds(next) ==>
              KeepsList() && archive == FailedLoadArchive(target.value, next.kind, old(archive))
              && signals == old(signals) + [ArchiveError(LoadError(target.value, next)), EndOfList])
        && (target.Some? && LoadSucceeds(next) ==>
              Loaded(target.value, next, 0, cacheSize) && signals == old(signals) + [Changed(images[index])]
              && LoaderJoined(old(cache), old(loadLog), progress) && resetLog == [])
        && (target.Some? ==>
              archiveEntries == (if next.kind.ArchiveFile? && next.kind.extractedPath != "" then next.kind.siblings
                                 else old(archiveEntries)))
    {
      if index + 1 < |images| {
        SetCurrent(index + 1, false, cacheSize, progress);
        return;
      }
      var target := NextArchive(archive, autoOpen, archiveEntries);
      if target.Some? {
        var ok := OpenSibling(target.value, next, 0, cacheSize, progress);
        if ok {
          return;
        }
      }
      signals := signals + [EndOfList];
    }

    /** ImageList::go_previous (src/imagelist.cc:210-228). It never signals
        the end of the list. */
    method GoPrevious(autoOpen: bool, previous: Listing, cacheSize: nat, progress: nat)
      requires Valid()
      modifies this`images, this`index, this`cache, this`archive, this`archiveEntries, this`cacheLoaderActive
      modifies this`cacheCancelled, this`thumbnailLoaderActive, this`fullLoaded, this`signals, this`loadLog
      modifies this`resetLog, widget`rows, widget`selected
      ensures Valid()
      ensures old(index) != 0 ==>
        && images == old(images) && index == old(index) - 1
        && signals == old(signals) + [Changed(images[index])]
        && cache == LoadOrder(index, cacheSize, |images|)
        && CacheMoved(old(fullLoaded), old(cache), old(loadLog), progress)
        && widget.selected == Some(index) && widget.rows == old(widget.rows)
        && archive == old(archive) && archiveEntries == old(archiveEntries)
        && thumbnailLoaderActive == old(thumbnailLoaderActive)
      ensures old(index) == 0 ==>
        var target := PreviousArchive(old(archive), autoOpen, old(archiveEntries));
        && (target.None? ==> unchanged(this) && unchanged(widget))
        && (target.Some? && !LoadSucceeds(previous) ==>
              KeepsList() && archive == FailedLoadArchive(target.value, previous.kind, old(archive))
              && signals == old(signals) + [ArchiveError(LoadError(target.value, previous))])
        && (target.Some? && LoadSucceeds(previous) ==>
              Loaded(target.value, previous, -1, cacheSize) && signals == old(signals) + [Changed(images[index])]
              && LoaderJoined(old(cache), old(loadLog), progress) && resetLog == [])
        && (target.Some? ==>
              archiveEntries == (if previous.kind.ArchiveFile? && previous.kind.extractedPath != "" then previous.kind.siblings
                                 else old(archiveEntries)))
      ensures forall j :: |old(signals)| <= j < |signals| ==> signals[j] != EndOfList
    {
      if index != 0 {
        SetCurrent(index - 1, false, cacheSize, progress);
        return;
      }
      var target := PreviousArchive(archive, autoOpen, archiveEntries);
      if target.Some? {
        var _ := OpenSibling(target.value, previous, -1, cacheSize, progress);
      }
    }

    /** ImageList::go_first (src/imagelist.cc:230-233). */
    method GoFirst(cacheSize: nat, progress: nat)
      requires Valid() && images != []
      modifies this`index, this`signals, this`cache, this`cacheLoaderActive, this`cacheCancelled
      modifies this`fullLoaded, this`loadLog, this`resetLog, widget`selected
      ensures Valid()
      ensures index == 0 && signals == old(signals) + [Changed(images[0])]
      ensures cache == LoadOrder(0, cacheSize, |images|) && widget.selected == Some(0)
      ensures CacheMoved(old(fullLoaded), old(cache), old(loadLog), progress)
    {
      SetCurrent(0, false, cacheSize, progress);
    }

    /** ImageList::go_last (src/imagelist.cc:235-238). */
    method GoLast(cacheSize: nat, progress: nat)
      requires Valid() && images != []
      modifies this`index, this`signals, this`cache, this`cacheLoaderActive, this`cacheCancelled
      modifies this`fullLoaded, this`loadLog, this`resetLog, widget`selected
      ensures Valid()
      ensures index == |images| - 1 && signals == old(signals) + [Changed(images[index])]
      ensures cache == LoadOrder(index, cacheSize, |images|) && widget.selected == Some(index)
      ensures CacheMoved(old(fullLoaded), old(cache), old(loadLog), progress)
    {
      SetCurrent(|images| - 1, false, cacheSize, progress);
    }

    /** ImageList::load(posts, page) (src/imagelist.cc:152-183): one image per
        post is appended and the thumbnail thread restarts; while the list
        holds at most BooruLimit images (the first page) the current image is
        set again, after that only the change is signalled. */
    method LoadPosts(posts: seq<Post>, siteUrl: string, booruLimit: int, cacheSize: nat, progress: nat)
      requires Valid() && |images| + |posts| > 0
      requires -0x8000_0000 <= booruLimit < 0x8000_0000
      modifies this`images, this`fullLoaded, this`thumbnailLoaderActive, this`index, this`signals
      modifies this`cache, this`cacheLoaderActive, this`cacheCancelled, this`loadLog, this`resetLog
      modifies widget`selected
      ensures Valid()
      ensures images == old(images) + PostImages(siteUrl, posts)
      ensures index == old(index) && thumbnailLoaderActive
      ensures signals == old(signals) + [Changed(images[index])]
      ensures |images| <= AsSize(booruLimit) ==>
        && cache == LoadOrder(index, cacheSize, |images|) && widget.selected == Some(index)
        && CacheMoved(old(fullLoaded) + Unloaded(|posts|), old(cache), old(loadLog), progress)
      ensures |images| > AsSize(booruLimit) ==>
        && cache == old(cache) && widget.selected == old(widget.selected)
        && fullLoaded == old(fullLoaded) + Unloaded(|posts|)
        && loadLog == old(loadLog) && resetLog == old(resetLog)
    {
      AppendPosts(posts, siteUrl);
      thumbnailLoaderActive := true;
      if |images| <= AsSize(booruLimit) {
        SetCurrent(index, false, cacheSize, progress);
      } else {
        signals := signals + [Changed(images[index])];
      }
    }

    /** The loop of load(posts, page) (src/imagelist.cc:154-174): one image
        per post, in order, without a full pixbuf. */
    method AppendPosts(posts: seq<Post>, siteUrl: string)
      modifies this`images, this`fullLoaded
      ensures images == old(images) + PostImages(siteUrl, posts)
      ensures fullLoaded == old(fullLoaded) + Unloaded(|posts|)
    {
      var added: seq<Image> := [];
      var j := 0;
      while j < |posts|
        invariant 0 <= j <= |posts|
        invariant added == PostImages(siteUrl, posts[..j])
        invariant images == old(images) && fullLoaded == old(fullLoaded)
      {
        PostImagesGrow(siteUrl, posts, j);
        added := added + [PostImage(siteUrl, posts[j])];
        j := j + 1;
      }
      assert posts[..j] == posts;
      images := images + added;
      fullLoaded := fullLoaded + Unloaded(|posts|);
    }

    /** One task of load_thumbnails (src/imagelist.cc:297-310): skipped when
        cancelled; otherwise the thumbnail goes on the queue and is signalled
        unless the flag was raised while it loaded (`cancelledAfterLoad`),
        in which case the flag stays up for the tasks after it. */
    method ThumbnailTask(i: nat, thumb: Pixbuf, cancelledAfterLoad: bool)
      modifies this`thumbnailQueue, this`signals, this`thumbnailCancelled
      ensures thumbnailCancelled == (old(thumbnailCancelled) || cancelledAfterLoad)
      ensures old(thumbnailCancelled) ==> thumbnailQueue == old(thumbnailQueue) && signals == old(signals)
      ensures !old(thumbnailCancelled) ==> thumbnailQueue == old(thumbnailQueue) + [PixbufPair(i, thumb)]
      ensures !old(thumbnailCancelled) ==>
        signals == old(signals) + (if cancelledAfterLoad then [] else [ThumbnailLoaded])
    {
      if thumbnailCancelled {
        return;
      }
      thumbnailQueue := thumbnailQueue + [PixbufPair(i, thumb)];
      if cancelledAfterLoad {
        thumbnailCancelled := true;
      } else {
        signals := signals + [ThumbnailLoaded];
      }
    }

    /** ImageList::load_thumbnails (src/imagelist.cc:290-317): thumbs[i] is
        image i's thumbnail. The first `cancelAt` tasks run before the flag
        is raised, the rest are skipped, and the all-loaded signal follows
        only when no cancel came. */
    method LoadThumbnails(thumbs: seq<Pixbuf>, cancelAt: nat)
      requires |thumbs| == |images|
      modifies this`thumbnailCancelled, this`thumbnailQueue, this`signals
      ensures thumbnailCancelled == (cancelAt < |images|)
      ensures thumbnailQueue == old(thumbnailQueue) + Produced(thumbs[..Min(cancelAt, |images|)])
      ensures signals == old(signals) + Notifications(Min(cancelAt, |images|))
                         + (if cancelAt < |images| then [] else [ThumbnailsLoaded])
    {
      thumbnailCancelled := false;
      var i := 0;
      while i < |images|
        invariant 0 <= i <= |images|
        invariant thumbnailCancelled == (cancelAt < i)
        invariant thumbnailQueue == old(thumbnailQueue) + Produced(thumbs[..Min(cancelAt, i)])
        invariant signals == old(signals) + Notifications(Min(cancelAt, i))
      {
        if i == cancelAt {
          thumbnailCancelled := true;
        }
        ghost var before := thumbnailQueue;
        ThumbnailTask(i, thumbs[i], thumbnailCancelled);
        if i < cancelAt {
          assert Produced(thumbs[..i + 1]) == Produced(thumbs[..i]) + [PixbufPair(i, thumbs[i])];
          assert Notifications(i + 1) == Notifications(i) + [ThumbnailLoaded];
        }
        i := i + 1;
      }
      if !thumbnailCancelled {
        signals := signals + [ThumbnailsLoaded];
      }
    }

    /** ImageList::on_thumbnail_loaded (src/imagelist.cc:319-328): the queue
        is drained front first into the widget's rows. */
    method OnThumbnailLoaded()
      modifies this`thumbnailQueue, widget`rows
      ensures thumbnailQueue == []
      ensures widget.rows == ApplyPairs(old(widget.rows), old(thumbnailQueue))
    {
      while thumbnailQueue != []
        invariant ApplyPairs(widget.rows, thumbnailQueue) == ApplyPairs(old(widget.rows), old(thumbnailQueue))
        decreases |thumbnailQueue|
      {
        var p := thumbnailQueue[0];
        widget.SetPixbuf(p.index, p.pixbuf);
        thumbnailQueue := thumbnailQueue[1..];
      }
    }

    /** ImageList::on_thumbnails_loaded (src/imagelist.cc:330-336). */
    method OnThumbnailsLoaded()
      requires thumbnailLoaderActive
      modifies this`thumbnailLoaderActive, widget`thumbnailsLoadedAt
      ensures !thumbnailLoaderActive && widget.thumbnailsLoadedAt == Some(index)
    {
      thumbnailLoaderActive := false;
      widget.OnThumbnailsLoaded(index);
    }
  }
}
