# MangaOCR-App, modelled in Dafny

MangaOCR-App reads manga pages. A YOLO detector finds text boxes (class 3)
and frames (class 2) on a page, and MangaOcr recognises the Japanese text of
each box. The desktop application (PyQt) and the web service (FastAPI with a
Vue front end) share one pipeline:

- clamp every detected box to the image and crop it;
- recognise the crop;
- cache the result under the image's content digest or its path;
- list the boxes in manga reading order. Frames go in rows top to bottom,
  and right to left within a row. Boxes inside a frame go by column and then
  by top. Boxes in no frame come last.

This project models that pipeline and the state machines around it:

- the three-pass clustering of detector boxes into speech bubbles;
- frame assignment and reading order;
- the server's content-addressed OCR cache and the desktop's plain one;
- the OCR worker loops of both programs, with their skip rules, progress
  reports and cache short-circuits;
- the desktop's undo history, box modes, stale-thread filtering, list
  deletion, page filter and hotkeys;
- the recent-folders list;
- the natural sort key for file names;
- the web viewer store and the route guard.

Each module follows one source component:

- `Clustering` (run.py)
- `ReadingOrder` (the three copies of the ordering code)
- `ExportPanel` (app/ui/textexportpanel.py)
- `PageText` (the batch text panel of app/ui/widgets.py)
- `ContentCache` (server/backend/cache.py)
- `AppCache` (app/cache.py)
- `OcrPipeline` (the server's ocr_pipeline.py)
- `OcrThreads` (app/core/ocr.py and the detection helpers of app/main.py)
- `AppState` (app/main.py)
- `Hotkeys` (app/ui/hotkeys.py)
- `RecentFolders` (app/core/cahcefolder.py)
- `NaturalKey` (app/utils.py)
- `ViewerStore` (viewer.js)
- `RouterGuard` (router/index.js)

Shared definitions live in six more modules:

- `Wrappers`: Option and Result.
- `Text`: lower-casing, `strip`, `basename` and `splitext`.
- `Sorting`: Python's stable `sorted` as a stable insertion sort, plus concatenation.
- `Grouping`: dictionaries of lists built in input order.
- `Geometry`: rectangles, Qt's `intersected`/`center`/`contains`, `cv2.boundingRect`, crop clamping.
- `Images`: decoded images, pixmaps, detections and image items.

How the source's state and mechanisms are modelled:

- Mutable objects are classes with `modifies` clauses:
  - `ContentCache.OCRCache` and `AppCache.OCRCache`;
  - `RecentFolders.CacheFolder`;
  - `ExportPanel.TextExportPanel` and `PageText.BatchTextPanel`;
  - `AppState.MangaOcrApp`;
  - `ViewerStore.Store`.
- Every method that changes state is proved against a function on values. The properties are lemmas about that function.
- Loops become methods with loop invariants: the clustering, the frame and row loops, the OCR loops and the page emission.
- Calls into code that is not part of this model become parameters:
  - the detector, the recogniser and image decoding;
  - the MD5 digests;
  - the file system: the paths of the files that exist (`onDisk`), and those that decode (`files`, a subset);
  - what the auth store's `init` finds out.
- A Qt signal is an element of the sequence of signals a thread emits.
- The thread token is a compared value.

Three behaviours of the code that are easy to misread:

- `merge_nested_groups` merges two groups whose gap is at most `min_bubble_gap` whatever the tolerance (run.py:1653-1663). The gap test is not limited to a tolerance of 0.
- The server pipeline turns a recogniser exception into empty text (server/backend/app/services/ocr_pipeline.py:102-106). The desktop threads catch only the colour conversion (app/core/ocr.py:47-51, app/main.py:819-824), so a recogniser exception there ends the thread.
- A crop of non-positive size is skipped silently in both programs (app/core/ocr.py:36-43, server/backend/app/services/ocr_pipeline.py:91-100). It is not reported as an error.

## Model

| member | source | states |
|---|---|---|
| Geometry.BoundingRect | run.py:1672 | `cv2.boundingRect` of a box is the smallest rectangle holding both corner pixels, so its size is max - min + 1 on each axis |
| Geometry.IntersectionAreaProperties | run.py:1586-1598 | the intersection area is the product of the two axis overlaps; it is never negative, it is symmetric, and it is at most either area |
| Geometry.QIntersectedArea | app/ui/widgets.py:379-380 | Qt's `intersected` (inclusive edges, a null rectangle when empty) has the same area as run.py's intersection formula |
| Geometry.BBoxDistanceProperties | run.py:1600-1628 | `bbox_distance` is the Euclidean length of the per-axis gaps; it is symmetric and is 0 exactly when the boxes are not strictly apart on either axis |
| Geometry.ContainsOwnCenter | app/ui/textexportpanel.py:25-27 | a non-empty rectangle contains its own `center()` |
| Geometry.ClampToImage | app/core/ocr.py:36-43 | the clamped crop lies inside the image, starts at `max(0, x)`, `max(0, y)` and has size `min(w, wImg - max(0, x))` by `min(h, hImg - max(0, y))`; it is skipped exactly when a clamped size is non-positive; a box already inside the image is kept as it is |
| Sorting.SortBy | app/ui/textexportpanel.py:115 | Python's `sorted` by key: the result is a permutation of the input of the same length |
| Sorting.InsertWithKey | app/ui/textexportpanel.py:115 | an inserted element goes before every element with its own key, and the elements of each key keep their order |
| Sorting.SortByStable | app/ui/textexportpanel.py:115 | `sorted` is stable: for every key, the elements with that key come out in the order they went in |
| Sorting.SortBySorted | app/ui/textexportpanel.py:115 | the result of `sorted` is ordered by its key |
| Sorting.SortBySortedIsIdentity | app/ui/textexportpanel.py:139 | sorting a list already ordered by the key leaves it as it is (stability) |
| Sorting.SortByIdempotent | app/ui/textexportpanel.py:139 | sorting twice is sorting once |
| Sorting.InsertSorted | app/ui/textexportpanel.py:115 | inserting into an ordered list before the first element not smaller keeps it ordered |
| Sorting.FlattenAppend | app/ui/textexportpanel.py:131-133 | extending a result part by part concatenates the parts, so the parts of two lists concatenate to the concatenation of both |
| Sorting.RangeOccursOnce | run.py:1498 | each index `0..n-1` occurs exactly once in `range(n)`, and no other value occurs |
| Grouping.Keys | app/ui/textexportpanel.py:40-45 | the keys of a dictionary built with `setdefault` are exactly the tags that occur |
| Grouping.KeysDistinct | app/ui/textexportpanel.py:40-45 | no key of that dictionary occurs twice |
| Grouping.TaggedUntaggedSplit | app/ui/textexportpanel.py:40-55 | the tagged elements and the untagged elements together are the input |
| Grouping.GroupsOfMultiset | app/ui/textexportpanel.py:47-51 | the groups of distinct keys together hold exactly the elements tagged with those keys |
| Grouping.GroupsInOrder | app/ui/textexportpanel.py:47-51 | taking the groups in any order of the keys gathers every tagged element exactly once |
| Text.LowerIdempotent | app/utils.py:7 | lower-casing twice is lower-casing once |
| Text.StripIsTrim | app/ui/textexportpanel.py:35 | `strip()` is the slice of the input that starts after its longest white-space prefix; only white space lies before and after the slice, and the result neither starts nor ends with white space |
| Text.LastIndexOf | app/ui/widgets.py:118 | the position of the last occurrence of a character, None when there is none |
| Text.Basename | app/ui/widgets.py:280 | `os.path.basename` is the longest tail of the path that holds no `/`: the tail is the whole path or follows a `/` |
| Text.StemAndExtension | app/ui/widgets.py:280 | `splitext` of a base name splits it into the stem and the extension, which concatenate back to it |
| Text.NatToString | app/ui/widgets.py:285 | `f"{idx+1}"` is a non-empty string of decimal digits that denotes the number, with no leading zero except in "0" |
| Clustering.HorizontalClauseIsGapBound | run.py:1514-1518 | since the overlap is the negated gap, the horizontal clause of the banding test is `x_gap <= max_horizontal_gap` when that bound is not negative |
| Clustering.ScanBandsShape | run.py:1508-1528 | the banding scan cuts the order into non-empty consecutive bands; the running centre is the mean of the open band's centres and the running right edge is its largest right edge |
| Clustering.MeanStep | run.py:1520 | the running-mean update `(mean * (n - 1) + y) / n` gives the mean of all `n` centres |
| Clustering.BandsPartition | run.py:1508-1532 | the bands, read one after another, are exactly the sorted order, and none is empty |
| Clustering.CloseBand | run.py:1524-1532 | closing a band appends its split by `split_group_horizontally` to the groups |
| Clustering.SplitsOfBandsPartition | run.py:1524-1532 | the splits of all the bands together are well formed and hold the bands' indices exactly as often as the bands do |
| Clustering.BandAndSplit | run.py:1508-1532 | the loop's groups are, band after band of the banding scan, that band's split by left edge, gap and centre shift; so they are non-empty and hold every index of the order exactly as often as the order does |
| Clustering.CenterOrder | run.py:1497-1506 | `ranges.sort(key=y_center)` is a permutation of `range(n)` ordered by vertical centre |
| Clustering.GroupBoxesByVerticalAndHorizontal | run.py:1484-1534 | no boxes give no groups; otherwise the bounds are the average height and width times the slider percentages, and the groups are the split of each band of the boxes in centre order, so they are non-empty and hold every box index `0..n-1` exactly once |
| Clustering.SplitGroupHorizontally | run.py:1536-1572 | the subgroups are non-empty and concatenate to the group sorted by left edge; a subgroup starts exactly where the gap or the centre shift to the box before exceeds its bound |
| Clustering.AbsorbLater | run.py:1639-1664 | the inner loop gives the group, the absorbed flags and the merge flag of `Absorb`: group `i` takes in each later group that is not yet absorbed and passes the merge test against group `i` as it was before the loop |
| Clustering.PassStep | run.py:1636-1664 | skipping an absorbed group, or letting an unabsorbed one absorb and keeping it, leaves the rest of the pass `PassFrom` unchanged |
| Clustering.MergePass | run.py:1632-1664 | one pass of the `while changed` loop returns exactly the new groups and merge flag of the functional pass `Pass`; it keeps the indices; a pass that merges leaves fewer groups; a pass that merges nothing leaves the groups as they were, and then no pair of them can merge |
| Clustering.PassProperties | run.py:1632-1664 | the functional pass keeps the indices and the well-formed groups; if it merges it leaves fewer groups; if it does not, the groups are unchanged and no pair of them passes the test |
| Clustering.PassChangedIff | run.py:1632-1664 | a pass merges exactly when some pair of groups passes the test, so groups no pair of which can merge come back as they were (two far-apart single boxes stay two groups) |
| Clustering.PassMergesPair | run.py:1639-1664 | two groups that pass the test become the one group holding the first group's indices, then the second's |
| Clustering.MergeFix | run.py:1631-1665 | repeating passes until one merges nothing ends; the groups it ends with are well formed, no more than before, hold the same indices as often, and no pair of them passes the test |
| Clustering.MergeFixIdle | run.py:1631-1665 | groups no pair of which passes the test are left as they are |
| Clustering.GroupBBoxSameElements | run.py:1577-1580 | a group's bounding box depends only on which indices it holds, not on their order or repetition |
| Clustering.Dedup | run.py:1666 | `list(set(g))` keeps each index of the group once |
| Clustering.SortedGroup | run.py:1666 | `sorted(list(g))` is strictly increasing and holds the same indices |
| Clustering.SortGroupsProperties | run.py:1666 | sorting every group keeps the bounding boxes, the covered indices and the absence of mergeable pairs |
| Clustering.MergeNestedGroups | run.py:1574-1666 | the result is the sorted form of `MergeFix`, the groups that passes reach once one merges nothing; it covers the same indices with no more groups; each group is strictly increasing; disjoint input groups give disjoint output groups with the same indices; no two result groups meet the merge condition |
| ReadingOrder.RoundHalfEven | app/ui/textexportpanel.py:138 | Python's `round(n / d)`: the nearest integer, the even one at a tie |
| ReadingOrder.RoundHalfEvenIsNearest | app/ui/textexportpanel.py:138 | no other integer is as close to `n / d`, except the odd neighbour at a tie |
| ReadingOrder.SortBoxesWithTolerance | app/ui/textexportpanel.py:136-139 | the result is a permutation of the boxes ordered by `(round(-left / tolerance), top)` |
| ReadingOrder.SortBoxesWithToleranceExample | app/ui/textexportpanel.py:136-139 | boxes at (500, 10), (505, 50), (300, 5) come out in that order: the first two share a column bucket |
| ReadingOrder.IsSameRowExamples | app/ui/textexportpanel.py:106-113 | frames at tops 0 and 4 of height 100 share a row; tops 0 and 120 do not |
| ReadingOrder.FirstRow | app/ui/textexportpanel.py:117-122 | the first row a frame may join, None exactly when it may join none |
| ReadingOrder.Place | app/ui/textexportpanel.py:116-125 | one bucketing step adds exactly the frame to the rows |
| ReadingOrder.FirstRowUnique | app/ui/textexportpanel.py:117-122 | a row the frame may join with no such row before it is the row `FirstRow` finds |
| ReadingOrder.PlaceJoinsFirstRow | app/ui/textexportpanel.py:116-125 | a frame joins an existing row exactly when it may join one, and then the first such row; otherwise it starts a new row at the end |
| ReadingOrder.PlaceAll | app/ui/textexportpanel.py:116-125 | the rows built from the frames hold exactly those frames |
| ReadingOrder.PlaceAllNonEmpty | app/ui/textexportpanel.py:116-125 | no row is ever empty |
| ReadingOrder.PlaceInRow | app/ui/textexportpanel.py:117-125 | the inner row-search loop with its `break` is the bucketing step |
| ReadingOrder.GroupRows | app/ui/textexportpanel.py:115-125 | the row loop computes the rows of the frames sorted by top |
| ReadingOrder.ReadRows | app/ui/textexportpanel.py:129-133 | the read-out loop gives the rows in order, each sorted right to left |
| ReadingOrder.SortFramesMangaStyle | app/ui/textexportpanel.py:105-134 | the method computes the manga reading order of the frames |
| ReadingOrder.MangaOrderPermutation | app/ui/textexportpanel.py:105-134 | the reading order is a permutation of the frames |
| ReadingOrder.MangaRowsTopToBottom | app/ui/textexportpanel.py:127 | rows are non-empty and are emitted in non-decreasing order of their topmost frame |
| ReadingOrder.MangaRowsRightToLeft | app/ui/textexportpanel.py:129-132 | within each emitted row, the left edges do not increase |
| ReadingOrder.MangaOrderTwoFrames | app/ui/textexportpanel.py:105-134 | two frames with the same top that share a row come out right to left |
| ReadingOrder.MangaOrderExample | app/ui/textexportpanel.py:105-134 | frames (0, 0, 100, 100) and (110, 0, 100, 100) share a row, so the right one comes first |
| ReadingOrder.MainFrameIndex | run.py:534-544 | the chosen frame has the largest overlap with the box, and that overlap is positive; ties keep the first such frame; None exactly when every overlap is 0 |
| ReadingOrder.MainFrameStep | app/ui/widgets.py:374-384 | the strict `>`: a frame replaces the best so far exactly when it overlaps more |
| ReadingOrder.GetBoxMainFrame | app/ui/widgets.py:374-384 | the loop over `max_inter` returns the frame at the chosen position, and None when there is none |
| ExportPanel.FirstContaining | app/ui/textexportpanel.py:25-29 | the first frame whose rectangle contains the box centre, None exactly when none does |
| ExportPanel.FindFrame | app/ui/textexportpanel.py:25-29 | the `for f in frames` loop with its `break` finds that first frame |
| ExportPanel.AssignFrame | app/ui/textexportpanel.py:23-29 | a box that has a frame, or that has no frame list, is unchanged; otherwise it gets the first frame holding its centre, and stays unframed exactly when no frame does; geometry and text never change |
| ExportPanel.AssignFrames | app/ui/textexportpanel.py:23-29 | every box is assigned on its own, and the boxes keep their positions |
| ExportPanel.AssignFramesLoop | app/ui/textexportpanel.py:23-29 | the frame-assignment loop of `set_boxes` assigns every box |
| ExportPanel.BuildFrameDict | app/ui/textexportpanel.py:40-45 | `setdefault(key, []).append(box)` builds one list per frame in first-occurrence order of the keys, each holding that frame's boxes in input order |
| ExportPanel.SortBoxes | app/ui/textexportpanel.py:39-56 | `_sort_boxes` computes the framed boxes frame by frame in reading order, then the unframed boxes |
| ExportPanel.SortedBoxesPermutation | app/ui/textexportpanel.py:39-56 | `_sort_boxes` returns every box exactly once |
| ExportPanel.FramedGroupShape | app/ui/textexportpanel.py:47-51 | the part for each frame holds exactly that frame's boxes, ordered by column bucket and top |
| ExportPanel.SortedBoxesLayout | app/ui/textexportpanel.py:47-55 | all framed boxes come first and the unframed boxes last, the latter ordered by `(-left, top)` |
| ExportPanel.ItemTexts | app/ui/textexportpanel.py:33-35 | one list item per box, showing its stripped text |
| ExportPanel.LastIndex | app/ui/textexportpanel.py:62 | the last position holding a text, None when no position does |
| ExportPanel.TextToBoxLastWins | app/ui/textexportpanel.py:62 | the text-to-box map has a text exactly when some box's stripped text is that text, and then maps it to the last such box |
| ExportPanel.DropFollowsItems | app/ui/textexportpanel.py:58-64 | after a drop the boxes follow the item order, without the items whose text no box has |
| ExportPanel.DropKeepsRearrangedItems | app/ui/textexportpanel.py:58-64 | items that rearrange the boxes' texts are all kept, in their new order |
| ExportPanel.TextExportPanel.constructor | app/ui/textexportpanel.py:6-15 | a new panel has no boxes, no frames, no path and no items |
| ExportPanel.UpdateCacheCalls | app/ui/textexportpanel.py:68-77 | `_update_cache` makes no call without a path or when the window has no `ocr_cache`, and otherwise one `set_for_path` call with the path, the boxes and the frames |
| ExportPanel.TextExportPanel.UpdateCache | app/ui/textexportpanel.py:68-77 | `_update_cache` appends exactly those calls to the panel's record and changes nothing else |
| ExportPanel.TextExportPanel.SetBoxes | app/ui/textexportpanel.py:17-37 | `set_boxes` stores the frames and the path, assigns frames to the boxes, sorts them, lists their stripped texts, and writes the sorted boxes to the window's cache under the path |
| ExportPanel.TextExportPanel.DropEvent | app/ui/textexportpanel.py:58-66 | after a drop the items are the new order and the boxes are rebuilt from the text-to-box map; frames and path are unchanged; the rebuilt boxes are written to the window's cache under the path |
| PageText.NumberingCount | app/ui/widgets.py:346 | every box of a page is numbered once with its own position, which `boxes.index(tbox)` recovers |
| PageText.PageOrderPermutation | app/ui/widgets.py:294-360 | the boxes of a page are listed in an order that takes each box exactly once |
| PageText.PageLinesCount | app/ui/widgets.py:276-360 | a page with an image has its header, one line per box, and the label line when some box is in no frame; a page without one has only its header |
| PageText.PageLinesLinks | app/ui/widgets.py:285-360 | the header and the label are the only lines without a box; every other line links to a box of its page and shows that box's stripped text |
| PageText.PageBoxOnce | app/ui/widgets.py:294-360 | each box of a page with an image is on exactly one line |
| PageText.PageStartsValid | app/ui/widgets.py:276-277 | `page_indices` rises strictly and every start is inside the list of lines |
| PageText.PageStartHeader | app/ui/widgets.py:276-286 | every page starts at its header line, which has no box |
| PageText.AsWrittenWithoutPixmapPages | app/ui/widgets.py:276-292 | when no page has only a pixmap, `on_finished` as written lists the same lines as the corrected handler and does not raise |
| PageText.AsWrittenStopsAtPixmapPage | app/ui/widgets.py:287-290 | as written, a page with a pixmap, no path and some boxes raises `AttributeError` after its header, where the corrected handler lists its boxes too |
| PageText.SelectedIsPage | app/ui/widgets.py:391-398 | selecting a page shows exactly that page's lines |
| PageText.SelectedLines | app/ui/widgets.py:391-398 | the view is cleared exactly when there are no lines or the page index is out of range |
| PageText.PySlice | app/ui/widgets.py:397 | a Python slice with bounds inside the list is the plain slice |
| PageText.ZebraAlternates | app/ui/widgets.py:400-425 | line 0 is the header; every later line keeps its text; the first of them is on `#444444`, and neighbouring lines have different backgrounds |
| PageText.ImwriteTarget | app/ui/widgets.py:116-121 | a path without an extension gets `.png`, which is then also the encoding; otherwise the lower-cased extension is the encoding |
| PageText.ImwritePngExtension | app/ui/widgets.py:118-119 | when the base name has something besides dots, the appended `.png` is the extension of the written file |
| PageText.AssignBoxes | app/ui/widgets.py:293-307 | the box loop gives one list per detected frame, holding the boxes whose main frame it is, and puts the others in `unframed` |
| PageText.EmitBoxes | app/ui/widgets.py:342-349 | the line loop over a frame's boxes gives one linked line per box |
| PageText.EmitFrames | app/ui/widgets.py:340-349 | the frame loop gives the lines of each frame in reading order |
| PageText.EmitPage | app/ui/widgets.py:276-360 | the lines appended for one page are its page lines |
| PageText.EmitAll | app/ui/widgets.py:273-360 | the outer loop gives all lines, page after page, and the page starts |
| PageText.BatchTextPanel.constructor | app/ui/widgets.py:270-275 | a new panel has no lines, starts, links or rows |
| PageText.BatchTextPanel.OnFinished | app/ui/widgets.py:270-360 | `on_finished` rebuilds the texts, links and page starts in lockstep; the rows shown stay as they were |
| PageText.BatchTextPanel.SetZebraText | app/ui/widgets.py:400-425 | `set_zebra_text` renders the zebra rows and changes nothing else |
| PageText.BatchTextPanel.ShowSelectedPageText | app/ui/widgets.py:391-398 | `show_selected_page_text` shows the selected page's rows or clears the view, and keeps the panel's invariant |
| ContentCache.HexCharCaseInsensitive | server/backend/cache.py:57 | lower-casing sends exactly the decimal digits and the letters A-F and a-f to hexadecimal digits |
| ContentCache.HexKeyExamples | server/backend/cache.py:57 | an upper-case 32-digit digest is a digest key; a 31-digit one is not |
| ContentCache.PathMd5 | server/backend/cache.py:119-127 | `md5_from_path` gives a digest exactly for a file that exists |
| ContentCache.SetGetMd5 | server/backend/cache.py:15-21 | after `set_by_md5(h, b, f)`, `get_by_md5(h)` gives `(b, f, h)`; other digests keep their entries; an empty digest stores nothing |
| ContentCache.ClearedEmpty | server/backend/cache.py:11-13 | after `clear` the invariant holds and no key is contained |
| ContentCache.SetMd5Inv | server/backend/cache.py:15-18 | `set_by_md5` keeps the invariant: every path is bound to a stored digest, every entry holds its own non-empty digest |
| ContentCache.SetPathInv | server/backend/cache.py:26-33 | `set_for_path` keeps the invariant |
| ContentCache.SetItemInv | server/backend/cache.py:77-94 | a successful `cache[key] = value` keeps the invariant |
| ContentCache.SetThenGetPath | server/backend/cache.py:26-42 | after `set_for_path` of an existing file, `get_for_path` finds what was stored and the path is contained |
| ContentCache.SetPathMissing | server/backend/cache.py:26-42 | a missing or unhashable file changes nothing and finds nothing |
| ContentCache.SameBytesSameEntry | server/backend/cache.py:35-42 | two files with the same bytes find the same entry |
| ContentCache.GetItemPrefersBinding | server/backend/cache.py:62-75 | `cache[path]` prefers the stored binding to the file's current digest |
| ContentCache.GetItemKeyError | server/backend/cache.py:62-75 | `cache[key]` raises KeyError exactly for a path with no binding and no digest |
| ContentCache.SetItemValueError | server/backend/cache.py:77-94 | `cache[key] = value` raises ValueError exactly for a value that is not a pair, or a path with no digest |
| ContentCache.SetItemThenContains | server/backend/cache.py:55-94 | a key that was stored is then contained, except the empty string, which `in` always rejects |
| ContentCache.SetItemIsSetPath | server/backend/cache.py:77-94 | `cache[path] = (b, f)` is `set_for_path(path, b, f)`, and a digest key is `set_by_md5` |
| ContentCache.OCRCache.constructor | server/backend/cache.py:7-9 | a new cache holds no entries and no bindings |
| ContentCache.OCRCache.Clear | server/backend/cache.py:11-13 | `clear` empties both dictionaries |
| ContentCache.OCRCache.SetByMd5 | server/backend/cache.py:15-18 | `set_by_md5` performs the write the model specifies and keeps the invariant |
| ContentCache.OCRCache.GetByMd5 | server/backend/cache.py:20-21 | `get_by_md5` reads the entry stored under the digest |
| ContentCache.OCRCache.HasMd5 | server/backend/cache.py:23-24 | `has_md5` holds exactly when an entry is stored under the digest |
| ContentCache.OCRCache.SetForPath | server/backend/cache.py:26-33 | `set_for_path` performs the path write the model specifies and keeps the invariant |
| ContentCache.OCRCache.GetForPath | server/backend/cache.py:35-42 | `get_for_path` reads through the file's current digest |
| ContentCache.OCRCache.SetForPixmap | server/backend/cache.py:44-47 | `set_for_pixmap` stores under the pixmap's digest, and stores nothing when it has none |
| ContentCache.OCRCache.GetForPixmap | server/backend/cache.py:49-53 | `get_for_pixmap` reads under the pixmap's digest |
| ContentCache.OCRCache.ContainsKey | server/backend/cache.py:55-60 | `key in cache` tests a digest key directly and a path through its binding |
| ContentCache.OCRCache.GetItemAt | server/backend/cache.py:62-75 | `cache[key]` gives the lookup result or KeyError |
| ContentCache.OCRCache.SetItemAt | server/backend/cache.py:77-94 | `cache[key] = value` performs the write or raises its error; on an error nothing changes |
| AppCache.Lookup | app/cache.py:9-11 | `dict.get` gives the stored value, and None exactly for an absent key |
| AppCache.LookupAfterWrite | app/cache.py:9-15 | `get(k)` after `set(k, v)` gives `v`, and other keys are unaffected |
| AppCache.OCRCache.constructor | app/cache.py:6-7 | a new cache is empty |
| AppCache.OCRCache.Get | app/cache.py:9-11 | `get` is the dictionary lookup |
| AppCache.OCRCache.Set | app/cache.py:13-15 | `set` overwrites the key, and the key counts as written |
| AppCache.OCRCache.Clear | app/cache.py:17-19 | after `clear` the cache is empty and nothing counts as written |
| AppCache.OCRCache.Contains | app/cache.py:21-22 | `k in cache` holds exactly when `k` was written since the last clear |
| AppCache.OCRCache.GetItem | app/cache.py:24-25 | `cache[k]` raises KeyError exactly where `get` gives None, and otherwise gives the same value |
| AppCache.OCRCache.SetItem | app/cache.py:27-28 | `cache[k] = v` is the same overwrite as `set` |
| OcrPipeline.OfClass | server/backend/app/services/ocr_pipeline.py:40-55 | the boxes of one class have empty text and are no more than the detections |
| OcrPipeline.OfClassCount | server/backend/app/services/ocr_pipeline.py:52-55 | there is one box per detection of the class, and the others are dropped |
| OcrPipeline.ClassesSplit | server/backend/app/services/ocr_pipeline.py:52-55 | boxes and frames together are at most the detections, and all of them when no other class occurs |
| OcrPipeline.DetectTextBoxes | server/backend/app/services/ocr_pipeline.py:30-57 | without a detector `([], [])`; otherwise class 3 goes to the boxes and class 2 to the frames, in detection order, with `w = x2 - x1`, `h = y2 - y1` and empty text |
| OcrPipeline.RecognizeAll | server/backend/app/services/ocr_pipeline.py:90-109 | every box after the loop is that box, recognised on its own |
| OcrPipeline.RecognizeKeepsGeometry | server/backend/app/services/ocr_pipeline.py:90-106 | recognition writes only the text: every box keeps its place and geometry, and a box whose clamped crop is empty is returned untouched |
| OcrPipeline.ProgressRises | server/backend/app/services/ocr_pipeline.py:108-109 | the progress reports count from 1 to the number of boxes, against that number, and rise strictly |
| OcrPipeline.RecognizeOne | server/backend/app/services/ocr_pipeline.py:91-106 | the loop body clamps the box to the image and, when the crop is not empty, recognises it; an exception gives "" |
| OcrPipeline.RecognizeBoxes | server/backend/app/services/ocr_pipeline.py:90-109 | the box loop recognises every box and reports `(idx + 1, n)` for each box that reached recognition |
| OcrPipeline.CacheHitShortCircuits | server/backend/app/services/ocr_pipeline.py:67-80 | a hit by path or by digest succeeds with no progress report and leaves the cache as it was |
| OcrPipeline.NoCacheStillStores | server/backend/app/services/ocr_pipeline.py:77-114 | with the cache off nothing is looked up, yet the result is stored under the image digest and returned with it |
| OcrPipeline.ProvidedBoxesBypass | server/backend/app/services/ocr_pipeline.py:82-86 | boxes given by the caller bypass the detector: no frames, and the caller's boxes with their texts |
| OcrPipeline.LoadImage | server/backend/app/services/ocr_pipeline.py:13-28 | `load_image` followed by `image_md5`: a path that is no file raises; a file or bytes that `cv2.imdecode` cannot read give `None`, on which `image_md5` raises; an array is the image itself |
| OcrPipeline.UndecodableRaises | server/backend/app/services/ocr_pipeline.py:73-74 | undecodable bytes raise before any progress report, and the cache is left as it was |
| OcrPipeline.MissingFileRaises | server/backend/app/services/ocr_pipeline.py:13-25 | a path that is no file raises, or is found in the cache without a report; either way nothing is stored |
| OcrPipeline.AsWrittenWithoutCache | server/backend/app/services/ocr_pipeline.py:64-114 | without a cache the code as written, with its misnamed digest calls, behaves as the corrected run |
| OcrPipeline.AsWrittenRaisesWithCache | server/backend/app/services/ocr_pipeline.py:76-112 | with a cache, as written, every image that loads and is not found by path raises `AttributeError` at `get_for_md5` or `set_for_md5` and stores nothing, where the corrected run succeeds |
| OcrPipeline.RunOcrSingle | server/backend/app/services/ocr_pipeline.py:59-114 | `run_ocr_single` gives the result or the exception (missing file, undecodable image), the progress reports and the cache afterwards that `Single` defines |
| OcrPipeline.ProgressUpTo | server/backend/app/services/ocr_pipeline.py:123-124 | the batch reports are `(0, n), (1, n), ...` |
| OcrPipeline.BatchShape | server/backend/app/services/ocr_pipeline.py:116-129 | a batch that completes has one result per source and reports `(idx, n)` before each |
| OcrPipeline.BatchResultsInOrder | server/backend/app/services/ocr_pipeline.py:122-127 | each result of a completed batch is what its source gives against the cache the earlier sources left |
| OcrPipeline.BatchErrorStops | server/backend/app/services/ocr_pipeline.py:122-127 | the first exception ends the batch: later sources are neither reported nor run |
| OcrPipeline.BatchAdvance | server/backend/app/services/ocr_pipeline.py:122-127 | one more source adds its report, then its run against the current cache |
| OcrPipeline.BatchStopsAtUndecodable | server/backend/app/services/ocr_pipeline.py:122-127 | an undecodable source ends the batch with that exception, right after its own report |
| OcrPipeline.RunOcrBatch | server/backend/app/services/ocr_pipeline.py:116-129 | `run_ocr_batch` gives the results or the first exception, the reports and the cache afterwards that `Batch` defines |
| OcrThreads.TextQuads | app/main.py:799-803 | the polygons of the detections, no more of them than there are detections |
| OcrThreads.TextQuadsMembers | app/main.py:799-803 | a polygon is returned exactly when some class-3 detection has it |
| OcrThreads.DetectTextBoxes | app/main.py:795-804 | `detect_text_boxes` gives those polygons, and None without a detector |
| OcrThreads.Lines | app/main.py:806-827 | every recognised box lies inside the image; there are no more boxes than polygons; without a recogniser every text is "" |
| OcrThreads.LinesFollowDetections | app/main.py:809-826 | the boxes follow detection order, one per polygon that is not skipped |
| OcrThreads.LineOne | app/main.py:810-826 | the loop body clamps the bounding rectangle and, when it is not empty, recognises it |
| OcrThreads.GroupAndRecognizeLines | app/main.py:806-827 | `group_and_recognize_lines` gives exactly those boxes |
| OcrThreads.BoxSignalsRise | app/core/ocr.py:41-54 | progress signals count from 1 to the number of boxes, never decrease, and carry the token |
| OcrThreads.ThreadSignalsTagged | app/core/ocr.py:26-56 | every signal carries the thread's token, and a run that does not raise ends with its one `finished` |
| OcrThreads.EmptyItemOnlyFinishes | app/core/ocr.py:25-28 | an item with neither a path nor a pixmap only emits `finished([], None, token)` |
| OcrThreads.RecognizeWithProgress | app/core/ocr.py:35-54 | the box loop gives the recognised boxes, with a progress signal before each skip test and one more after each recognition |
| OcrThreads.OcrThreadRun | app/core/ocr.py:18-56 | `OCRThread.run` emits exactly the model's signals |
| OcrThreads.BatchKeepsOrder | app/core/ocr.py:73-96 | a batch that does not raise gives one result per item with a key, in input order, each with one progress value |
| OcrThreads.BatchProgressRises | app/core/ocr.py:96 | progress values lie within 1..total and rise strictly |
| OcrThreads.BatchCacheGrows | app/core/ocr.py:81-93 | entries cached before the batch are never overwritten, and every result's key ends up cached |
| OcrThreads.BatchSkips | app/core/ocr.py:74-79 | an item without a key adds nothing |
| OcrThreads.BatchHits | app/core/ocr.py:81-82 | a hit reuses the stored boxes |
| OcrThreads.BatchMisses | app/core/ocr.py:83-96 | a miss recognises the image and caches the boxes with it |
| OcrThreads.BatchRaises | app/core/ocr.py:84-91 | a miss on an image that cannot be loaded, or with no detector, raises |
| OcrThreads.BatchRaisesToEnd | app/core/ocr.py:84-91 | a raising miss leaves the whole batch raised |
| OcrThreads.BatchRaisedStays | app/core/ocr.py:73-96 | once the batch raised, later items change nothing |
| OcrThreads.RecognizeMiss | app/core/ocr.py:84-92 | a miss loads the image, detects and recognises; it fails exactly where the source raises |
| OcrThreads.AsWrittenWithPaths | app/core/ocr.py:83-91 | when every item has a path, the batch as written, which reads `self.image_item` for a pixmap, is the corrected batch |
| OcrThreads.AsWrittenPixmapMissRaises | app/core/ocr.py:86-87 | as written, an uncached pixmap without a path ends the batch with no result, where the corrected batch recognises it |
| OcrThreads.BatchOcrRun | app/core/ocr.py:69-97 | `BatchOCRThread.run` finishes with the model's results (nothing when it raised), its progress values and its cache |
| AppState.Initial | app/main.py:38-48 | the empty application is well formed |
| AppState.SavedHistory | app/main.py:673-680 | the history keeps at most 100 snapshots and ends with the current state; when full, it loses only its oldest |
| AppState.FirstWithPath | app/main.py:694-700 | the first list position holding the restored path, None when no position does |
| AppState.FindPath | app/main.py:694-700 | the search loop of `undo_action` finds that first position |
| AppState.UndoAfterSave | app/main.py:673-711 | undo right after a save restores the list and path saved and the history before the save |
| AppState.UndoneWellFormed | app/main.py:682-711 | undo keeps the state well formed; it changes nothing without history, and otherwise drops one snapshot |
| AppState.TogglesExclusive | app/main.py:425-447 | each toggle flips its own mode and leaves the other off, so both are never on; toggling twice restores the mode |
| AppState.StaleSignalsIgnored | app/main.py:782-786 | signals tagged with another token than the current one change nothing and cache nothing |
| AppState.SupersededThreadIgnored | app/main.py:866-868 | a superseded `OCRThread` leaves the view as it is, whatever it emits |
| AppState.CurrentSignalsTaken | app/main.py:782-786 | progress of the current thread, or without a token, is shown |
| AppState.DeletedSelection | app/main.py:1210-1251 | after deleting the selected row, the image after it is selected, or the one before when the last was deleted; an emptied list clears the path and the boxes; the state before is saved |
| AppState.ClearedUndoable | app/main.py:1260-1268 | clearing empties the list and the path, and undo brings them back |
| AppState.NormalizedRect | app/main.py:505-510 | an added box runs from the smaller to the larger corner coordinate |
| AppState.NormalizedRectSymmetric | app/main.py:505-510 | the corners can be given in either order |
| AppState.MangaPageRejects | app/main.py:1327-1342 | a basename marked "icon", "preview" or "thumb" is rejected whatever its case, an image under 400 pixels either way whatever its name, and an unreadable image always |
| AppState.MangaOcrApp.constructor | app/main.py:38-48 | the application starts empty with an empty cache |
| AppState.MangaOcrApp.SaveHistory | app/main.py:673-680 | `save_history` appends the current state, dropping the oldest beyond 100 |
| AppState.MangaOcrApp.UndoAction | app/main.py:682-711 | `undo_action` restores the last snapshot as Undone says, and raises FileNotFoundError exactly when the restored path is listed and no file is at that path (UndoRaises) |
| AppState.UndoOutcomes | app/main.py:701-711 | for a listed path (a file that `imread_unicode`, app/main.py:788-793, opens and `display_image_with_boxes`, line 883, shows), a missing file raises after the restore and selection with nothing shown; a file that exists but does not decode is not shown and raises nothing; a decodable file is shown; an unlisted path clears the boxes and never raises |
| AppState.MangaOcrApp.EnableAddBoxMode | app/main.py:425-435 | `enable_add_box_mode` toggles add mode, turning delete mode off |
| AppState.MangaOcrApp.EnableDelBoxMode | app/main.py:437-447 | `enable_del_box_mode` toggles delete mode, turning add mode off |
| AppState.MangaOcrApp.UpdateOcrProgress | app/main.py:782-786 | `update_ocr_progress` shows the progress of an accepted signal |
| AppState.MangaOcrApp.OnOcrFinished | app/main.py:866-881 | `on_ocr_finished` takes the boxes of an accepted signal and caches them with the image under the current path, else under the digest of the last pixmap shown |
| AppState.MangaOcrApp.ClearImages | app/main.py:1260-1268 | `clear_images` saves, then empties the list, the path and the boxes |
| AppState.MangaOcrApp.ClearOcrCache | app/main.py:1353-1354 | `clear_ocr_cache` empties the cache and leaves the view unchanged |
| AppState.MangaOcrApp.DeleteSelectedImage | app/main.py:1210-1251 | `delete_selected_image` deletes the selected row as the model says |
| Hotkeys.JardicFirst | app/ui/hotkeys.py:9-11 | `j` and `о` toggle the Jardic browser whatever the key code and modifiers |
| Hotkeys.DispatchIgnoresCase | app/ui/hotkeys.py:7 | the text is compared lower-cased, so Shift or Caps Lock does not matter |
| Hotkeys.CtrlCommandsLast | app/ui/hotkeys.py:61-77 | a Ctrl command is taken only when no earlier branch matched; without Ctrl the same key does nothing |
| Hotkeys.CtrlRClearsCache | app/ui/hotkeys.py:68-71 | Ctrl+R (and `к`) clears the OCR cache, and the same key without Ctrl does nothing |
| Hotkeys.NavigationKeys | app/ui/hotkeys.py:45-59 | Up, `q` and `й` show the previous image; Down, `e` and `у` the next; the key code goes before the text |
| Hotkeys.EffectWellFormed | app/ui/hotkeys.py:13-77 | every command keeps the state well formed, add and delete modes exclusive; `a` flips add mode and `d` flips delete mode |
| Hotkeys.HandleHotkeys | app/ui/hotkeys.py:5-79 | `handle_hotkeys` returns true exactly when a branch matched, and the state and cache change as that branch's command says; Ctrl+Z raises exactly when undo's restored file is gone |
| RecentFolders.Without | app/core/cahcefolder.py:29 | the folders other than `p`, in their order, each as often as before |
| RecentFolders.Take | app/core/cahcefolder.py:31-32 | `folders[:n]` is a prefix of at most `n` entries, the whole list when it is short enough |
| RecentFolders.WithoutKeepsNoDuplicates | app/core/cahcefolder.py:29 | removing a folder keeps a list free of duplicates |
| RecentFolders.AddedShape | app/core/cahcefolder.py:27-32 | after `add(p)` the list has at most `max_items` entries; when it has room, `p` is first and occurs once, and the others follow in their old order without `p` |
| RecentFolders.AddedNoDuplicates | app/core/cahcefolder.py:27-32 | `add` keeps a list free of duplicates |
| RecentFolders.AddedIdempotent | app/core/cahcefolder.py:27-32 | adding the same folder twice is adding it once |
| RecentFolders.WithoutAbsent | app/core/cahcefolder.py:29 | removing an absent folder changes nothing |
| RecentFolders.CacheFolder.constructor | app/core/cahcefolder.py:5-9 | a new list holds the stored folders and the bound |
| RecentFolders.CacheFolder.Add | app/core/cahcefolder.py:27-33 | `add` puts `p` in front of the others and cuts the list to the bound |
| RecentFolders.CacheFolder.GetAll | app/core/cahcefolder.py:35-36 | `get_all` gives the folders, most recent first |
| RecentFolders.CacheFolder.Clear | app/core/cahcefolder.py:38-40 | `clear` empties the list |
| NaturalKey.Split | app/utils.py:7 | `re.split(r'(\d+)', s)` alternates text without digits and non-empty digit runs, and starts with an empty text exactly when `s` starts with a digit |
| NaturalKey.SplitJoins | app/utils.py:7 | joining the parts of `re.split(r'(\d+)', s)` gives `s` back |
| NaturalKey.AlternatingAt | app/utils.py:7 | even positions are text without digits, odd positions non-empty digit runs |
| NaturalKey.KeyAlternates | app/utils.py:7 | the key has odd length; even positions are lower-case text without digits, odd positions numbers |
| NaturalKey.SplitLength | app/utils.py:7 | `re.split` gives one text more than there are digit runs |
| NaturalKey.KeyLength | app/utils.py:7 | the key has `2k + 1` elements for `k` maximal digit runs |
| NaturalKey.SplitLower | app/utils.py:7 | lower-casing first splits at the same places |
| NaturalKey.LowerKeepsDigits | app/utils.py:7 | lower-casing keeps digit runs as they are and adds no digits to text |
| NaturalKey.ConvertLower | app/utils.py:7 | a part converts the same whatever its case |
| NaturalKey.KeyCaseInsensitive | app/utils.py:7 | upper and lower case give the same key |
| NaturalKey.SplitNumber | app/utils.py:7 | a digit run alone splits into an empty text, the run and an empty text |
| NaturalKey.SplitAfterText | app/utils.py:7 | text without digits in front joins the first text of the rest |
| NaturalKey.SplitTextNumber | app/utils.py:7 | text followed by one digit run splits into the text, the run and an empty tail |
| NaturalKey.NumbersCompareNumerically | app/utils.py:7 | names that differ only in a trailing number sort by that number |
| NaturalKey.P2BeforeP10 | app/utils.py:7 | "p2" sorts before "p10", though as plain strings "p10" comes first |
| ViewerStore.JsRemTurn | server/frontend/WebMangaOCR/src/stores/viewer.js:51 | JavaScript's `% 360` takes the sign of the dividend, and is the identity on `0..359` |
| ViewerStore.AddFilesSelection | server/frontend/WebMangaOCR/src/stores/viewer.js:17-22 | adding files keeps the old files in front; it selects the first file exactly when nothing was selected and the list is not empty; otherwise the same file stays selected |
| ViewerStore.RemoveNothing | server/frontend/WebMangaOCR/src/stores/viewer.js:24-26 | an index with no file, or with a file without an id, changes nothing |
| ViewerStore.RemoveSelected | server/frontend/WebMangaOCR/src/stores/viewer.js:29-30 | removing the selected file selects `min(len - 1, index)`: the file now at its place, or the last, or none |
| ViewerStore.RemoveKeepsSelectedFile | server/frontend/WebMangaOCR/src/stores/viewer.js:31-33 | removing another file keeps the same file selected: the index drops by one when the removed file was before it |
| ViewerStore.RemoveDropsOne | server/frontend/WebMangaOCR/src/stores/viewer.js:24-27 | removing a file drops exactly that file and keeps the others in order |
| ViewerStore.SelectionStaysValid | server/frontend/WebMangaOCR/src/stores/viewer.js:17-51 | every action but `selectFile` keeps a valid selection valid; `selectFile` does for an index in range |
| ViewerStore.UpdateOcrTextOnly | server/frontend/WebMangaOCR/src/stores/viewer.js:40-45 | updating a file's text changes that text and nothing else; an index with no file changes nothing |
| ViewerStore.ZoomStaysInRange | server/frontend/WebMangaOCR/src/stores/viewer.js:48-50 | zooming keeps the scale within [25, 500] and moves it the right way; fitting to width sets 100 |
| ViewerStore.ZoomInverse | server/frontend/WebMangaOCR/src/stores/viewer.js:48-49 | below the top step zooming out undoes zooming in, and above the bottom step the reverse |
| ViewerStore.RotateCycles | server/frontend/WebMangaOCR/src/stores/viewer.js:51 | `rotate` turns 0 to 90 to 180 to 270 and back to 0 |
| ViewerStore.InitialValid | server/frontend/WebMangaOCR/src/stores/viewer.js:10-12 | the initial store is exactly no files, no selection (-1), scale 100 and rotation 0, and it is valid, in range and at a right angle |
| ViewerStore.Store.constructor | server/frontend/WebMangaOCR/src/stores/viewer.js:8-15 | a new store is the initial one |
| ViewerStore.Store.AddFiles | server/frontend/WebMangaOCR/src/stores/viewer.js:17-22 | `addFiles` performs the update the model specifies |
| ViewerStore.Store.RemoveFile | server/frontend/WebMangaOCR/src/stores/viewer.js:24-34 | `removeFile` performs the update the model specifies |
| ViewerStore.Store.SelectFile | server/frontend/WebMangaOCR/src/stores/viewer.js:36-38 | `selectFile` sets the selection |
| ViewerStore.Store.UpdateOcrText | server/frontend/WebMangaOCR/src/stores/viewer.js:40-45 | `updateOcrText` performs the update the model specifies |
| ViewerStore.Store.ZoomIn | server/frontend/WebMangaOCR/src/stores/viewer.js:48 | `zoomIn` steps the scale up, capped at 500 |
| ViewerStore.Store.ZoomOut | server/frontend/WebMangaOCR/src/stores/viewer.js:49 | `zoomOut` steps the scale down, floored at 25 |
| ViewerStore.Store.FitToWidth | server/frontend/WebMangaOCR/src/stores/viewer.js:50 | `fitToWidth` sets the scale to 100 |
| ViewerStore.Store.Rotate | server/frontend/WebMangaOCR/src/stores/viewer.js:51 | `rotate` adds a quarter turn modulo a full turn |
| RouterGuard.Guard | server/frontend/WebMangaOCR/src/router/index.js:36-43 | after the guard the store is initialised; `init` ran exactly when the store was not initialised before, and then its outcome is the new state; otherwise the state is unchanged |
| RouterGuard.RouteTable | server/frontend/WebMangaOCR/src/router/index.js:8-29 | `/` and `/home/:projectId` require authentication; `/login`, `/register` and `/home/` do not |
| RouterGuard.AuthPagesArePublic | server/frontend/WebMangaOCR/src/router/index.js:21-28 | the login and register pages need no authentication |
| RouterGuard.InitBeforeDecision | server/frontend/WebMangaOCR/src/router/index.js:39-42 | the decision uses the state `init` left, and the next navigation does not run `init` again |
| RouterGuard.AnonymousToLogin | server/frontend/WebMangaOCR/src/router/index.js:41 | a protected page sends an anonymous user to `/login` |
| RouterGuard.AuthenticatedToHome | server/frontend/WebMangaOCR/src/router/index.js:42 | the login and register pages send an authenticated user to `/` |
| RouterGuard.RedirectOnlyThen | server/frontend/WebMangaOCR/src/router/index.js:41-43 | there is a redirect exactly in those two cases |
| RouterGuard.NoRedirectLoop | server/frontend/WebMangaOCR/src/router/index.js:8-43 | the page a redirect leads to lets the user through, without running `init` again |

## Left out

- Qt widgets, painting, layout, HTML styling and mouse-to-image coordinate mapping are user interface. The rows of the zebra view are modelled as text and background colour only.
- Image decoding, cropping, colour conversion and PNG encoding are parameters:
  - a decoded image is its size and its bytes;
  - a pixmap is its PNG encoding and its image.
  - A failure of the PIL conversion, which makes the loops skip a box, is not modelled.
- The YOLO detector, the MangaOcr recogniser, `hashlib.md5` and the file system are parameters, and model loading is not modelled.
- In the desktop threads, the recogniser is a total function. A recogniser exception, which ends those threads (app/core/ocr.py:51, app/main.py:824), is not modelled.
- QThread and signal concurrency is modelled sequentially. A thread is the sequence of signals it emits. A token is `Option<nat>`: `Some(n)` stands for an `object()` token, compared for equality, and `None` for a thread started without one (`token=None`), whose signals then carry `None`.
- NumPy means and ratios are exact reals, and `hypot` is compared on squares. Float rounding is not modelled. Slider values are integer percentages.
- Clustering.MergeNestedGroups: Python sets become duplicate-free index sequences, deduplicated at the end, so the iteration order of a set is not modelled. The `list(set(g))` order is not observable after the final `sorted`.
- Some loop bodies are separate methods, each proved against the same function as the loop. These are Clustering.AbsorbLater, Clustering.PassStep, Clustering.CloseBand, ReadingOrder.PlaceInRow, ReadingOrder.GroupRows, ReadingOrder.ReadRows, OcrPipeline.RecognizeOne, OcrThreads.LineOne, OcrThreads.RecognizeMiss, ExportPanel.FindFrame, PageText.EmitBoxes, AppState.MangaOcrApp.PopSnapshot, AppState.MangaOcrApp.Restore and AppState.MangaOcrApp.DropRow. The source has no such separate functions.
- Boxes are values. The source mutates shared `MangaTextBox` objects (`box.text`, `box.frame_rect`), and aliasing between lists holding the same box object is not modelled. `boxes.index(tbox)` in `on_finished` finds the box's own position, which the model records alongside each box.
- The desktop's `ocr_cache` is modelled with the plain dictionary cache of app/cache.py. app/core/cache.py is not part of this model.
- ExportPanel.TextExportPanel.UpdateCache: the window's cache is not called. The panel records each `set_for_path` call it makes, and whether the window has an `ocr_cache` is a parameter. An exception inside `set_for_path` is printed and changes nothing, so it is not modelled.
- Basename: paths are POSIX paths with `/` as the only separator. The Windows `\` separator of `ntpath` is not modelled.
- The three defects under "## Findings" are modelled twice: as written, and as evidently intended. The rest of the model uses the intended form.
- The unbound `text` at app/main.py:534 and `text_boxes` at run.py:85 lie on paths that are not modelled: the recognition of a hand-drawn box, and run.py's copy of `OCRThread`.
- `toggle_delete_box_mode` (app/main.py:609) is never called and is not modelled.
- `show_prev_image`, `show_next_image`, `select_folder`, `export_text`, the Jardic browser, the deletion confirmation and `display_image_with_boxes` are reported by Hotkeys only as commands. Their effect is limited to what AppState models.
- `load_selected_image` is not modelled beyond the token it sets.
- The progress bar's range and visibility handling is modelled as three fields; Qt's clamping of a value to the range is not.
- `on_ocr_finished` caches under the digest of the last pixmap shown. The model assumes that digest is not empty.
- CacheFolder's JSON load and save, and its `Path` normalisation, are not modelled. Folders are strings compared for equality.
- ContentCache: `str(Path)` is the path string. A `None` digest and a `None` key are modelled as the empty string.
- ViewerStore: `useFileCache` is assumed to append the new files and remove the file with the given id, and ids are assumed unique. Its source is not part of this model.
- RouterGuard: vue-router's matching of trailing slashes and letter case is not modelled. What `init` finds out is a parameter.
- NaturalKey: `\d` and `str.isdigit` are modelled as the ASCII digits.
- Text.Lower: `str.lower` is modelled for ASCII and the Russian alphabet (А-Я and Ё) only; other letters are kept as they are. This limit applies wherever Lower is used: Hotkeys.Dispatch, AppState.IsMangaPage, PageText.ImwriteTarget, ContentCache's hex test and NaturalKey.
- docx/txt export, downloading and scraping, `fill_frames_and_save`, the server's HTTP, auth and database layers, and the front end's IndexedDB cache are outside the modelled core.

## Findings

| source | as written | input that shows it | evidently intended | confidence | as-written member | corrected member |
|---|---|---|---|---|---|---|
| server/backend/app/services/ocr_pipeline.py:78 | the digest lookup calls `cache.get_for_md5(md5)` and the store at line 112 calls `cache.set_for_md5(...)`; the cache class (server/backend/cache.py:15-20) defines only `get_by_md5` and `set_by_md5`, so both raise `AttributeError` (`OcrPipeline.SingleAsWritten`) | a cache is configured and the source is decodable bytes, or a path not found in the cache | look up and store by digest with `get_by_md5` and `set_by_md5` | not executed | OcrPipeline.AsWrittenRaisesWithCache | OcrPipeline.NoCacheStillStores |
| app/core/ocr.py:87 | a cache miss on an item with a pixmap and no path converts `self.image_item.pixmap`; `BatchOCRThread` has no `image_item`, so the batch raises (`OcrThreads.BatchStepAsWritten`) | a batch of one item with a pixmap, no path and no cache entry, with the detector loaded | convert the loop's own `image_item.pixmap` | not executed | OcrThreads.AsWrittenPixmapMissRaises | OcrThreads.BatchMisses |
| app/ui/widgets.py:290 | `on_finished` converts `self.image_item.pixmap` for a page with a pixmap and no path; the text panel has no `image_item`, so the handler raises after that page's header (`PageText.FinishedFrom`) | one result page with a pixmap, no path and one box | convert the loop's own `image_item.pixmap` | not executed | PageText.AsWrittenStopsAtPixmapPage | PageText.PageLinesCount |
