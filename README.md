# AhoViewer ImageList: prefetch window, navigation and thumbnail queue

This project is a Dafny model of `AhoViewer::ImageList`, the image viewer's list of images. The model covers:

- the current position in the list;
- the window of images around that position whose full pixbufs a background loader prefetches;
- the eviction of images that leave the window;
- navigation: next, previous, first, last, clear, and load from a path or from a page of booru posts;
- the queue through which thumbnail tasks hand pixbufs to the widget's rows.

Modules, one per file:

- `Util` (`util.dfy`): `Option`, `Min`, duplicate-freedom, and `Find`, which is `std::find` as a position.
- `CacheWindow` (`cachewindow.dfy`):
  - the loop of `update_cache` as a method, `BuildWindow`;
  - the function that specifies it, `Window`;
  - a closed description of the window's members and length, with the properties the window always has.
- `Priority` (`priority.dfy`):
  - the comparator of `update_cache` as an integer key;
  - the sorted window (`PriorityOrder`) and the proof that it is the one result sorting can give;
  - the eviction list (`Evicted`).
- `CacheOrder` (`cacheorder.dfy`): the cache `update_cache` stores, and the examples of the source's comment.
- `Widgets` (`widgets.dfy`): `ImageList::Widget` as a class over its list-store rows.
- `Thumbnails` (`thumbnails.dfy`): the pending-thumbnail queue and what draining it does to the rows.
- `Booru` (`booru.dfy`): absolute URLs and tag splitting for booru posts.
- `ImageLists` (`imagelists.dfy`): the `ImageList` class itself.

The `ImageList` class is modelled as follows:

- Its fields follow the header: images, index, cache, archive, archive entries, thumbnail queue, and the thread and cancel-flag states.
- Each method is proved against the functions above.
- Its invariant `Valid()` says:
  - there is one pixbuf bit per image;
  - the index is in range;
  - the cache is a duplicate-free list of indices;
  - the cache is non-empty exactly while a cache loader is held.

Threads are sequentialised:

- The cache loader's loads happen when `cancel_cache` joins it. How far it got before it saw the cancel flag is a parameter, `progress`.
- The thumbnail tasks run in index order. How many start before `clear()` cancels them is a parameter, `cancelAt`.
- Settings (`CacheSize`, `AutoOpenArchive`, `BooruLimit`) are parameters.
- What the file system says about a path is a parameter of type `Listing`: the kind of path, and the image entries already in natural order.

Behaviour of the code worth knowing, which the model follows:

- **Window size.** The window is not always `min(2 * cacheSize + 1, size)` long.
  - The guard at src/imagelist.cc:371 tests `index - i - cacheSize`, but line 373 pushes that value plus `ncount`. The guard at line 381 and the push at line 383 are mismatched in the same way, with `pcount`.
  - So near either end one free image can stay outside the window. `CacheWindow.WindowCanBeShort` shows this for index 5 and for index 1, with cache size 3 and 7 images.
  - What always holds is proved instead: the index comes first, all entries are in range, there are at most `2 * cacheSize + 1` entries, and there are no duplicates. The exact window is also proved away from the ends and at either end.
- **Eviction.** Every index of the old cache that the new window lacks loses its full pixbuf, as `Priority.Evicted` states. Moving from index 4 (cache size 3) to index 9 (cache size 2) among eleven images evicts 1, 2, 3, 4 and 5.
- **A failed load can change the archive fields.**
  - A path that does not exist (src/imagelist.cc:88-91), is not supported (lines 82-85) or does not extract (lines 73-77) returns before either field is touched.
  - `m_Archive` is reset when the path is a directory or an image file (lines 95-96), before the listing is checked.
  - `m_ArchiveEntries` is replaced as soon as an archive extracts (line 98).
  - `m_Archive` is reset when the directory holds no images (line 105), even for an archive that extracted.
- **Thumbnail thread on load.** `load` starts a new thumbnail thread without cancelling or joining the previous one (line 146). The thread is joined by `clear` (lines 36-37) and by `on_thumbnails_loaded` (line 332).
- **Appending booru posts.** Appending posts restarts the thumbnail thread (line 176). The new thread walks every image of the list, the images of earlier pages included.
- **Clear and the queue.** `clear` does not empty the thumbnail queue.
- **Header and implementation.** The header and the implementation disagree on:
  - the `force` parameter of `set_current`;
  - `ustring` versus `string` in `load`;
  - a `unique_ptr` versus a `shared_ptr` for the archive;
  - the widget hook `on_thumbnails_loaded`, which src/imagelist.cc:335 calls but the `Widget` class of src/imagelist.h:32-81 does not declare.

  The bodies in src/imagelist.cc are followed, and the header gives the field set.

## Model

| member | source | states |
|---|---|---|
| Util.Find | src/imagelist.cc:115-116 | the position of the first occurrence of `x`, or the length when there is none |
| CacheWindow.WindowAfter | src/imagelist.cc:355-385 | the window after k rounds of the loop: the index, then per round the next index ahead and the next behind, or a compensating index when one side has run out |
| CacheWindow.Window | src/imagelist.cc:355-385 | the window after `cacheSize` rounds; `WindowShape` and `WindowMembers` state its properties |
| CacheWindow.BuildWindow | src/imagelist.cc:355-385 | the loop's result is `Window`, starts with the index, lies in `[0, size)`, has at most `2*cacheSize+1` entries and no duplicates |
| CacheWindow.WindowAfterMembers | src/imagelist.cc:364-385 | after k steps an index is in the window iff it is the index, a neighbour within k on a side that exists, or one of the compensating indices |
| CacheWindow.WindowAfterLength | src/imagelist.cc:364-385 | after k steps the window has `1 + min(k,f) + min(k,b)` entries plus the compensating ones, where f and b are the room ahead and behind |
| CacheWindow.WindowAfterStartsAtIndex | src/imagelist.cc:355 | the window's first entry is the current index |
| CacheWindow.WindowAfterNoDup | src/imagelist.cc:364-385 | no step pushes an index already in the window |
| CacheWindow.WindowShape | src/imagelist.cc:355-385 | the window starts with the index, stays in range, has at most `2*cacheSize+1` entries and no duplicates |
| CacheWindow.WindowMembers | src/imagelist.cc:364-385 | membership in the finished window is the closed description |
| CacheWindow.CentredWindow | src/imagelist.cc:364-385 | with `cacheSize` images free on both sides the window is exactly `[index-cacheSize, index+cacheSize]` |
| CacheWindow.WindowAtStart | src/imagelist.cc:358-359 | at index 0 the window is exactly `[0, min(2*cacheSize, size-1)]` |
| CacheWindow.WindowAtEnd | src/imagelist.cc:364-385 | at the last index, with `2*cacheSize` images before it, the window is exactly `[index-2*cacheSize, index]` |
| CacheWindow.WindowCanBeShort | src/imagelist.cc:371-384 | the window for (5, 3, 7) lacks 0 and the one for (1, 3, 7) lacks 6, each shorter than `min(2*cacheSize+1, size)` |
| Priority.Evicted | src/imagelist.cc:387-394 | an index is evicted iff it was in the old cache and is not in the new window; the list is increasing and names each index once |
| Priority.PriorityKey | src/imagelist.cc:396-400 | the comparator's key: an index at or after the current one has a key below the list size, an earlier one a key above it |
| Priority.PriorityOrder | src/imagelist.cc:396-400 | the window sorted by the key: the current index, the later indices ascending, the earlier ones nearest first; `PriorityOrderCorrect` proves it sorted and a permutation |
| Priority.PriorityOrderCorrect | src/imagelist.cc:396-400 | the sorted window holds exactly the window's indices, each once, is sorted by the comparator's key, and starts with the index |
| Priority.PriorityOrderMembers | src/imagelist.cc:396-400 | sorting neither adds nor drops an index: the sorted window holds exactly the indices of the window |
| Priority.PriorityOrderSorted | src/imagelist.cc:396-400 | the sorted window is in strictly increasing key order, later indices before earlier ones |
| Priority.PriorityOrderPermutes | src/imagelist.cc:396-400 | sorting a duplicate-free window permutes it |
| Priority.SortedOrderUnique | src/imagelist.cc:396-400 | two lists sorted by the key over the same indices are equal |
| Priority.SortsToPriorityOrder | src/imagelist.cc:396-400 | any key-sorted arrangement of the window is `PriorityOrder`, whatever order the loop pushed in |
| CacheOrder.LoadOrder | src/imagelist.cc:355-400 | the cache update_cache stores: the sorted window; `LoadOrderShape` states its properties |
| CacheOrder.LoadOrderShape | src/imagelist.cc:355-400 | the stored cache starts with the index, lies in range, has no duplicates, holds the window's indices, and is key-sorted |
| CacheOrder.LoadOrderDirections | src/imagelist.cc:396-400 | every later index precedes every earlier one; later ones ascend; earlier ones come by increasing distance |
| CacheOrder.EvictedLeaveCache | src/imagelist.cc:387-405 | the indices reset are exactly those of the old cache that the new sorted cache does not hold, each once |
| CacheOrder.FirstImageWindow | src/imagelist.cc:358-359 | cache size 2 at index 0 of five images gives `{0,1,2,3,4}` |
| CacheOrder.MiddleImageWindow | src/imagelist.cc:360-361 | cache size 3 at index 4 of eight images gives `{4,5,6,7,3,2,1}` |
| CacheOrder.NearEndWindow | src/imagelist.cc:362-363 | cache size 2 at index 9 of eleven images gives `{9,10,8,7,6}` |
| Widgets.SetRow | src/imagelist.h:54-58 | only an existing row `i` changes, to `p`; the row count is kept |
| Widgets.Widget.Clear | src/imagelist.h:50-53 | no rows remain |
| Widgets.Widget.SetPixbuf | src/imagelist.h:54-58 | row `index` takes the pixbuf when it exists; otherwise nothing changes |
| Widgets.Widget.Reserve | src/imagelist.h:59-63 | exactly `s` empty rows are appended and existing rows are unchanged |
| Widgets.Widget.Erase | src/imagelist.h:68-72 | an existing row is removed and later rows move down; otherwise nothing changes |
| Widgets.Widget.Insert | src/imagelist.h:73-78 | the new row goes before row `i` when it exists, else at the end; one more row |
| Widgets.Widget.SetSelected | src/imagelist.h:47 | the widget records the selected index |
| Widgets.Widget.OnThumbnailsLoaded | src/imagelist.cc:335 | the widget records the index it was told about |
| Thumbnails.ApplyPairs | src/imagelist.cc:319-328 | the rows after `set_pixbuf` has been applied for each queued pair, front first; `LastPairWins` states the result |
| Thumbnails.Produced | src/imagelist.cc:295-305 | an uncancelled run queues one pair per image, image j with its thumbnail, in index order |
| Thumbnails.LastPairWins | src/imagelist.cc:319-328 | draining keeps the row count, and each row ends with the pixbuf of the last pair naming it, or keeps its own |
| Thumbnails.LastForProduced | src/imagelist.cc:295-305 | in an uncancelled run the last pair for row k carries image k's thumbnail |
| Thumbnails.AllThumbnailsApplied | src/imagelist.cc:290-328 | draining an uncancelled run's queue puts every image's thumbnail in its own row and leaves the other rows alone |
| Booru.AbsoluteUrl | src/imagelist.cc:167-171 | a URL starting with '/' gets the site URL in front; any other URL, the empty one included, is kept |
| Booru.WordLength | src/imagelist.cc:163-165 | the length of the leading word: no white space before it, and white space or the end right after it |
| Booru.Tokens | src/imagelist.cc:163-165 | every tag is a non-empty word without white space |
| Booru.TokensKeepText | src/imagelist.cc:163-165 | the tags, concatenated, are the attribute with its white space removed |
| Booru.TokensAfterWord | src/imagelist.cc:163-165 | a word followed by white space or the end is read as one tag, and reading goes on after it |
| Booru.TokensOfJoinedWords | src/imagelist.cc:163-165 | tags written with single spaces are read back as the same tags |
| ImageLists.LoadSucceeds | src/imagelist.cc:59-108 | load goes on exactly when the path is a directory, an image file or an archive that extracts, and the directory holds images |
| ImageLists.LoadError | src/imagelist.cc:73-107 | the message of each failure: extraction, unsupported, missing, and no images in the directory |
| ImageLists.FailedLoadArchive | src/imagelist.cc:94-107 | after a failed load `m_Archive` is kept or reset: kept for a missing, unsupported or non-extracting path, reset otherwise |
| ImageLists.PostImage | src/imagelist.cc:156-173 | the booru image of a post: its paths, its file and preview URLs made absolute, its tags split |
| ImageLists.StartIndex | src/imagelist.cc:113-125 | an opened image file starts at its first position among the entries, or at 0 when absent; otherwise at `index`, with -1 meaning the last entry |
| ImageLists.NextArchive | src/imagelist.cc:192-200 | auto-open goes to the sibling after the archive's first occurrence, and to none when it is last or absent |
| ImageLists.PreviousArchive | src/imagelist.cc:216-224 | auto-open goes to the sibling before the archive's first occurrence, to none when it is first, and to the last sibling when it is absent |
| ImageLists.AsSize | src/imagelist.cc:179 | the limit converted to size_t lies in `[0, 2^64)` and agrees with the int modulo 2^64 |
| ImageLists.ImageList.constructor | src/imagelist.cc:8-23 | a new list is empty at index 0 with no cache, no loader and no archive |
| ImageLists.ImageList.IsEmpty | src/imagelist.h:105 | the list is empty iff its size is 0 |
| ImageLists.ImageList.RunCacheLoader | src/imagelist.cc:408-417 | the loader loads a prefix of the cache, its first min(progress, cache length) entries in order, and nothing else |
| ImageLists.ImageList.CancelCache | src/imagelist.cc:422-434 | with a loader: its prefix is loaded, no loader remains, the cache is empty and the flag is down; without a loader: nothing changes |
| ImageLists.ImageList.ResetPixbufs | src/imagelist.cc:404-405 | exactly the listed images lose their full pixbuf, in list order |
| ImageLists.ImageList.UpdateCache | src/imagelist.cc:353-420 | the cache becomes the sorted window with a loader active; the old loader's prefix is loaded; the images reset are exactly those of the old cache outside the new one, each once, and none when the old cache was empty |
| ImageLists.ImageList.NextCache | src/imagelist.cc:355-400 | changes nothing; returns the window in load order, non-empty, in range and without duplicates, and the old cache indices outside it, each once |
| ImageLists.ImageList.SwapCache | src/imagelist.cc:402-419 | the old loader's prefix is loaded, exactly the given indices lose their pixbufs, and a loader runs on the given cache |
| ImageLists.ImageList.SetCurrent | src/imagelist.cc:338-351 | a widget report of the current index changes nothing; otherwise the index moves, Changed is signalled, the cache follows, the old loader's prefix is loaded, exactly the old cache indices outside the new cache lose their pixbufs, and the selection is set only when not from the widget |
| ImageLists.ImageList.Clear | src/imagelist.cc:30-47 | no images, index 0, no archive, the cache loader joined and dropped, the thumbnail loader cancelled and joined, no rows, Cleared signalled |
| ImageLists.ImageList.StopThumbnails | src/imagelist.cc:33-39 | the thumbnail cancel flag is up and no thumbnail loader remains |
| ImageLists.ImageList.Load | src/imagelist.cc:53-150 | succeeds iff the path is a directory, an image or an extracting archive with images; on failure gives the source's message, keeps the list, the pixbufs and the widget, and leaves the archive kept or reset as the case says; on success sets `Loaded` after joining the old loader; archive entries change only when an archive extracts |
| ImageLists.ImageList.OpenPath | src/imagelist.cc:55-108 | succeeds iff load can go on; a failure gives the message for the case; the archive is the one opened, or after a failure kept or reset as the case says; archive entries change only when an archive extracts |
| ImageLists.ImageList.OpenEntries | src/imagelist.cc:127-147 | one image per entry, no full pixbufs, one empty row per image, thumbnails started, the old loader joined, and the list moved to the start index with nothing reset |
| ImageLists.ImageList.PrepareEntries | src/imagelist.cc:127-146 | with the old loader joined and the cache empty, one unloaded image per entry, one empty row per image, the index at the start and the thumbnail thread running |
| ImageLists.ImageList.ReplaceImages | src/imagelist.cc:130-144 | the images become one per entry in order, archive images when an archive is open, and none holds its full pixbuf |
| ImageLists.ImageList.OpenSibling | src/imagelist.cc:199-201 | a successful load of the sibling leaves `Loaded` after joining the old loader; a failed one keeps the list, the pixbufs and the widget, leaves the archive kept or reset as load does, and signals the archive error with the load message |
| ImageLists.ImageList.GoNext | src/imagelist.cc:185-208 | moves to index+1 when it exists, the cache and pixbufs following as in set_current and the archive untouched; otherwise opens the next archive, or keeps the list and signals the archive error and EndOfList, or keeps everything and signals only EndOfList |
| ImageLists.ImageList.GoPrevious | src/imagelist.cc:210-228 | moves to index-1 when the index is not 0, the cache and pixbufs following as in set_current and the archive untouched; otherwise opens the previous archive, or keeps the list and signals its error, or changes nothing; never signals EndOfList |
| ImageLists.ImageList.GoFirst | src/imagelist.cc:230-233 | the index becomes 0, Changed is signalled, and the cache and pixbufs follow as in set_current |
| ImageLists.ImageList.GoLast | src/imagelist.cc:235-238 | the index becomes size-1, Changed is signalled, and the cache and pixbufs follow as in set_current |
| ImageLists.ImageList.LoadPosts | src/imagelist.cc:152-183 | one image per post is appended with absolute URLs and split tags, each without its pixbuf, and thumbnails restart; within BooruLimit the current image is set again as in set_current; beyond it only Changed is signalled and cache, pixbufs and logs stay |
| ImageLists.ImageList.AppendPosts | src/imagelist.cc:154-174 | the images gain one booru image per post, in order, and each new image lacks its full pixbuf |
| ImageLists.ImageList.ThumbnailTask | src/imagelist.cc:297-310 | a cancelled task does nothing; otherwise the pair is queued and signalled unless the flag rose meanwhile, and a flag that rose stays up for the tasks after it |
| ImageLists.ImageList.LoadThumbnails | src/imagelist.cc:290-317 | the tasks before the cancel queue their pairs in order and signal each one; the all-loaded signal follows only when none was cancelled |
| ImageLists.ImageList.OnThumbnailLoaded | src/imagelist.cc:319-328 | the queue is emptied and the rows become the old rows with every pair applied in FIFO order |
| ImageLists.ImageList.OnThumbnailsLoaded | src/imagelist.cc:330-336 | the thumbnail thread is dropped and the widget is told the current index |

## Left out

- Threads, the thread pool, the mutex and the dispatcher are not modelled as concurrency (src/imagelist.cc:146, 290-317, 408-417). The loader and the tasks are run sequentially, at the points described above. Interleavings of tasks, and tasks still in flight when `clear` joins, are not modelled.
- The comparator's key is `std::abs` of an unsigned difference plus the double `1e18` (src/imagelist.cc:398-399). It is replaced by the integer key it stands for. Unsigned wrap and double rounding can merge the keys of earlier indices.
- `update_cache` computes with `size_t` and casts to `int` at lines 371 and 376. The model uses mathematical integers, which agree with it for lists below 2^31 images and cache sizes of at most 2^30. With a larger cache size the wrapped difference `index - i - cacheSize` can cast to a positive `int`, and the source then pushes an index past the end; that wrap is not modelled.
- File-system and archive work is not modelled: the file tests, `get_image_entries`, `get_archive_entries`, extraction and `NaturalSort` (src/imagelist.cc:59-108, 240-288). Their results are the `Listing` parameter.
- The XML and path helpers of the booru load are not modelled. These are pugi, `build_filename`, `path_get_basename` and the percent-decoding of section 2.1 of RFC 3986. The local paths are given in each `Post`.
- src/booru/image.cc is a network client and is not part of this model. Its images' `load_pixbuf`/`reset_pixbuf` are one bit per image, and `get_thumbnail` is an input thumbnail per image.
- The `get_size` override of src/booru/imagelist.h:16 is not part of this model. Its `clear` and `load` bodies are not shown.
- `can_go_next`, `can_go_previous` and `on_cache_size_changed` are declared in the header but have no body in src/imagelist.cc. They are not modelled.
- The iterators `begin`/`end` and the signal accessors (src/imagelist.h:108-117) are not modelled. Signals are recorded in the `signals` field.
- `get_archive` is not modelled. `GetSize`, `GetIndex`, `GetCurrent` and `FromArchive` are plain accessors without a contract.
- The `selected_changed` connection of the constructor is not modelled. A widget selection is `SetCurrent` with `fromWidget` true.
- ImageLists.NextArchive: when the list of sibling archives is empty, `m_ArchiveEntries.size() - 1` wraps in the source and line 200 reads past the end. The model answers that there is no next archive.
- ImageLists.ImageList.Load: requires `-1 <= idx` and, when there are entries, `idx < |entries|`. For a directory or an archive the source does not check `index`: below -1 or at the number of entries or beyond, `set_current` would index outside the list. For an image file the source ignores `index` (src/imagelist.cc:113-116), so there the requires is stronger than the source needs.
- ImageLists.ImageList.GoFirst and ImageLists.ImageList.GoLast: require a non-empty list. The source indexes `m_Images[0]` or `m_Images[size - 1]` without a check.
- ImageLists.ImageList.LoadPosts: requires at least one image afterwards, for the same reason. It takes BooruLimit as a 32-bit int.
