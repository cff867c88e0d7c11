/**
 * The desktop application's OCR workers: `OCRThread.run` recognises one
 * image and reports progress tagged with its token; `BatchOCRThread.run`
 * recognises a list of images through the application's cache. The detector
 * (`detect_text_boxes` over YOLO), the recogniser (`mocr`), file decoding and
 * `pixmap_md5` are parameters; Qt signals become a list of emitted values.
 */
module OcrThreads {
  import opened Wrappers
  import opened Geometry
  import opened Images
  import AppCache

  /** The thread's token: the identity of the `object()` it was given, None when it has none. */
  type Token = Option<nat>

  /**
   * The outside world: the decodable files, the detector (None when no model
   * is loaded), the recogniser (None before it is loaded) and `pixmap_md5`'s digest.
   */
  datatype AppEnv = AppEnv(files: map<string, Image>,
                           detector: Option<Image -> seq<Detection>>,
                           mocr: Option<(Image, Rect) -> string>,
                           md5: seq<bv8> -> string)

  /** A signal `OCRThread` emits: `progress(current, total, token)` or `finished(text_boxes, img_cv, token)`. */
  datatype Signal =
    | Progressed(current: nat, total: nat, token: Token)
    | Finished(boxes: seq<TextBox>, image: Option<Image>, token: Token)

  // ---------------------------------------------------------------------------
  // detect_text_boxes (app/main.py, run.py)
  // ---------------------------------------------------------------------------

  /** The polygon of a detection. */
  function QuadOf(d: Detection): Quad {
    Quad(d.x1, d.y1, d.x2, d.y2)
  }

  /** The polygons of the class-3 (text) detections, in detection order. */
  function TextQuads(dets: seq<Detection>): (r: seq<Quad>)
    ensures |r| <= |dets|
  {
    if dets == [] then []
    else
      var d := dets[|dets| - 1];
      TextQuads(dets[..|dets| - 1]) + (if d.cls == 3 then [QuadOf(d)] else [])
  }

  /** What `detect_text_boxes` returns: None without a detector. */
  function Detected(env: AppEnv, img: Image): Option<seq<Quad>> {
    match env.detector
    case None => None
    case Some(detect) => Some(TextQuads(detect(img)))
  }

  /** A polygon is returned exactly when some text detection has it. */
  lemma {:induction false} TextQuadsMembers(dets: seq<Detection>, q: Quad)
    ensures q in TextQuads(dets) <==> exists k :: 0 <= k < |dets| && dets[k].cls == 3 && QuadOf(dets[k]) == q
  {
    if dets != [] {
      var init := dets[..|dets| - 1];
      TextQuadsMembers(init, q);
      assert forall k :: 0 <= k < |init| ==> init[k] == dets[k];
      if exists k :: 0 <= k < |dets| && dets[k].cls == 3 && QuadOf(dets[k]) == q {
        var k :| 0 <= k < |dets| && dets[k].cls == 3 && QuadOf(dets[k]) == q;
        if k < |init| {
          assert init[k] == dets[k];
        }
      }
    }
  }

  /** `detect_text_boxes`. */
  method DetectTextBoxes(env: AppEnv, img: Image) returns (r: Option<seq<Quad>>)
    ensures r == Detected(env, img)
  {
    if env.detector.None? {
      return None;
    }
    var dets := env.detector.value(img);
    var boxes: seq<Quad> := [];
    var i := 0;
    while i < |dets|
      invariant i <= |dets| && boxes == TextQuads(dets[..i])
    {
      assert dets[..i + 1][..i] == dets[..i];
      if dets[i].cls == 3 {
        boxes := boxes + [QuadOf(dets[i])];
      }
      i := i + 1;
    }
    assert dets[..i] == dets;
    r := Some(boxes);
  }

  // ---------------------------------------------------------------------------
  // group_and_recognize_lines (app/main.py, run.py) and the OCRThread box loop
  // ---------------------------------------------------------------------------

  /** The bounding rectangle of the polygon clamped to the image; None where the box is skipped. */
  function CropOf(q: Quad, img: Image): Option<Rect> {
    var b := BoundingRect(q);
    ClampToImage(b.x, b.y, b.w, b.h, img.width, img.height)
  }

  /** The recognised text of a crop, "" before the recogniser is loaded. */
  function LineText(env: AppEnv, img: Image, r: Rect): string {
    match env.mocr
    case None => ""
    case Some(recognize) => recognize(img, r)
  }

  /** The box a polygon gives, if it is not skipped. */
  function LineOf(env: AppEnv, img: Image, q: Quad): Option<TextBox> {
    match CropOf(q, img)
    case None => None
    case Some(r) => Some(TextBox(r, LineText(env, img, r), None))
  }

  /** The boxes of `group_and_recognize_lines`: every one lies inside the image. */
  function Lines(env: AppEnv, img: Image, qs: seq<Quad>): (r: seq<TextBox>)
    ensures |r| <= |qs|
    ensures forall k :: 0 <= k < |r| ==> InsideImage(r[k].rect, img.width, img.height) && r[k].frame.None?
    ensures env.mocr.None? ==> forall k :: 0 <= k < |r| ==> r[k].text == ""
  {
    if qs == [] then []
    else
      var l := LineOf(env, img, qs[|qs| - 1]);
      Lines(env, img, qs[..|qs| - 1]) + (if l.Some? then [l.value] else [])
  }

  /** The positions of the polygons that are not skipped. */
  function Kept(img: Image, qs: seq<Quad>): seq<nat> {
    if qs == [] then []
    else Kept(img, qs[..|qs| - 1]) + (if CropOf(qs[|qs| - 1], img).Some? then [|qs| - 1] else [])
  }

  /**
   * The boxes follow detection order, one per polygon that is not skipped:
   * the j-th box is the recognised crop of the j-th kept polygon.
   */
  lemma LinesFollowDetections(env: AppEnv, img: Image, qs: seq<Quad>)
    ensures var kept := Kept(img, qs);
            |Lines(env, img, qs)| == |kept| &&
            (forall j :: 0 <= j < |kept| ==> kept[j] < |qs| && LineOf(env, img, qs[kept[j]]) == Some(Lines(env, img, qs)[j])) &&
            (forall i, j :: 0 <= i < j < |kept| ==> kept[i] < kept[j]) &&
            (forall k :: 0 <= k < |qs| && CropOf(qs[k], img).Some? ==> k in kept)
  {
    LinesMatchKept(env, img, qs);
    KeptIncreasing(img, qs);
    KeptComplete(img, qs);
  }

  lemma {:induction false} LinesMatchKept(env: AppEnv, img: Image, qs: seq<Quad>)
    ensures var kept := Kept(img, qs);
            |Lines(env, img, qs)| == |kept| &&
            forall j :: 0 <= j < |kept| ==> kept[j] < |qs| && LineOf(env, img, qs[kept[j]]) == Some(Lines(env, img, qs)[j])
  {
    if qs != [] {
      var init := qs[..|qs| - 1];
      LinesMatchKept(env, img, init);
      assert forall k :: 0 <= k < |init| ==> init[k] == qs[k];
    }
  }

  lemma {:induction false} KeptIncreasing(img: Image, qs: seq<Quad>)
    ensures forall j :: 0 <= j < |Kept(img, qs)| ==> Kept(img, qs)[j] < |qs|
    ensures forall i, j :: 0 <= i < j < |Kept(img, qs)| ==> Kept(img, qs)[i] < Kept(img, qs)[j]
  {
    if qs != [] {
      KeptIncreasing(img, qs[..|qs| - 1]);
    }
  }

  lemma {:induction false} KeptComplete(img: Image, qs: seq<Quad>)
    ensures forall k :: 0 <= k < |qs| && CropOf(qs[k], img).Some? ==> k in Kept(img, qs)
  {
    if qs != [] {
      var init := qs[..|qs| - 1];
      KeptComplete(img, init);
      assert forall k :: 0 <= k < |init| ==> init[k] == qs[k];
    }
  }

  /** `group_and_recognize_lines`. */
  method GroupAndRecognizeLines(env: AppEnv, img: Image, qs: seq<Quad>) returns (boxes: seq<TextBox>)
    ensures boxes == Lines(env, img, qs)
  {
    boxes := [];
    var i := 0;
    while i < |qs|
      invariant i <= |qs| && boxes == Lines(env, img, qs[..i])
    {
      var line := LineOne(env, img, qs[i]);
      LinesStep(env, img, qs, i);
      if line.Some? {
        boxes := boxes + [line.value];
      }
      i := i + 1;
    }
    assert qs[..i] == qs;
  }

  /** The body of the polygon loop: the clamped bounding rectangle and, when it is not empty, its text. */
  method LineOne(env: AppEnv, img: Image, q: Quad) returns (line: Option<TextBox>)
    ensures line == LineOf(env, img, q)
  {
    var b := BoundingRect(q);
    var x, y := Max(0, b.x), Max(0, b.y);
    var w, h := Min(b.w, img.width - x), Min(b.h, img.height - y);
    CropOfIs(q, img, x, y, w, h);
    if w > 0 && h > 0 {
      var r := Rect(x, y, w, h);
      var text := if env.mocr.Some? then env.mocr.value(img, r) else "";
      line := Some(TextBox(r, text, None));
    } else {
      line := None;
    }
  }

  /** The crop the loops compute inline. */
  lemma CropOfIs(q: Quad, img: Image, x: int, y: int, w: int, h: int)
    requires var b := BoundingRect(q);
             x == Max(0, b.x) && y == Max(0, b.y) && w == Min(b.w, img.width - x) && h == Min(b.h, img.height - y)
    ensures w <= 0 || h <= 0 ==> CropOf(q, img).None?
    ensures w > 0 && h > 0 ==> CropOf(q, img) == Some(Rect(x, y, w, h))
  {
  }

  lemma LinesStep(env: AppEnv, img: Image, qs: seq<Quad>, i: nat)
    requires i < |qs|
    ensures var l := LineOf(env, img, qs[i]);
            Lines(env, img, qs[..i + 1]) == Lines(env, img, qs[..i]) + (if l.Some? then [l.value] else [])
  {
    assert qs[..i + 1][..i] == qs[..i];
  }

  // ---------------------------------------------------------------------------
  // OCRThread.run (app/core/ocr.py)
  // ---------------------------------------------------------------------------

  /** An item's image: its file (None: unreadable), else its pixmap, else none at all. */
  datatype Loaded = Loaded(image: Image) | NoImage | Unreadable

  function Load(env: AppEnv, item: ImageItem): Loaded {
    if item.path != "" then
      if item.path in env.files then Loaded(env.files[item.path]) else Unreadable
    else if item.pixmap.Some? then Loaded(item.pixmap.value.image)
    else NoImage
  }

  /** The progress signals of the first `hi` polygons: one before the skip test, one more after a recognition. */
  function BoxSignals(img: Image, qs: seq<Quad>, hi: nat, token: Token): seq<Signal>
    requires hi <= |qs|
  {
    if hi == 0 then []
    else
      var p := Progressed(hi, |qs|, token);
      BoxSignals(img, qs, hi - 1, token) + [p] + (if CropOf(qs[hi - 1], img).Some? then [p] else [])
  }

  /**
   * The signals of `OCRThread.run`, in order. An item without an image only
   * finishes; an unreadable file or a missing detector raises, so nothing is emitted.
   */
  function ThreadSignals(env: AppEnv, item: ImageItem, token: Token): seq<Signal> {
    match Load(env, item)
    case NoImage => [Finished([], None, token)]
    case Unreadable => []
    case Loaded(img) =>
      match Detected(env, img)
      case None => []
      case Some(qs) => BoxSignals(img, qs, |qs|, token) + [Finished(Lines(env, img, qs), Some(img), token)]
  }

  /** Progress signals only, counting within 1..hi of `total`, never decreasing, all with `token`. */
  predicate RisingProgress(s: seq<Signal>, hi: nat, total: nat, token: Token) {
    (forall k :: 0 <= k < |s| ==> s[k].Progressed? && 1 <= s[k].current <= hi && s[k].total == total && s[k].token == token) &&
    (forall i, j :: 0 <= i < j < |s| ==> s[i].current <= s[j].current)
  }

  /** Progress counts run from 1 to the number of boxes, never decrease, and carry the token. */
  lemma {:induction false} BoxSignalsRise(img: Image, qs: seq<Quad>, hi: nat, token: Token)
    requires hi <= |qs|
    ensures RisingProgress(BoxSignals(img, qs, hi, token), hi, |qs|, token)
  {
    if hi > 0 {
      var prev := BoxSignals(img, qs, hi - 1, token);
      var s := BoxSignals(img, qs, hi, token);
      var p := Progressed(hi, |qs|, token);
      var tail := [p] + (if CropOf(qs[hi - 1], img).Some? then [p] else []);
      assert s == prev + tail;
      BoxSignalsRise(img, qs, hi - 1, token);
      assert forall k :: 0 <= k < |prev| ==> s[k] == prev[k];
      assert forall k :: |prev| <= k < |s| ==> s[k] == tail[k - |prev|] == p;
    }
  }

  /** Every signal carries the thread's token, and a run that does not raise ends with its one `finished`. */
  lemma ThreadSignalsTagged(env: AppEnv, item: ImageItem, token: Token)
    ensures var s := ThreadSignals(env, item, token);
            (forall k :: 0 <= k < |s| ==> s[k].token == token) &&
            (s != [] ==> s[|s| - 1].Finished? && forall k :: 0 <= k < |s| - 1 ==> s[k].Progressed?)
  {
    match Load(env, item)
    case NoImage =>
    case Unreadable =>
    case Loaded(img) =>
      match Detected(env, img)
      case None =>
      case Some(qs) =>
        var boxes := BoxSignals(img, qs, |qs|, token);
        var s := boxes + [Finished(Lines(env, img, qs), Some(img), token)];
        BoxSignalsRise(img, qs, |qs|, token);
        assert forall k :: 0 <= k < |boxes| ==> s[k] == boxes[k];
  }

  /** An item with neither a path nor a pixmap only finishes, with no boxes and no image. */
  lemma EmptyItemOnlyFinishes(env: AppEnv, name: string, token: Token)
    ensures ThreadSignals(env, ImageItem("", name, None), token) == [Finished([], None, token)]
  {
  }

  /** The box loop of `OCRThread.run`: the recognised boxes and the progress signals. */
  method RecognizeWithProgress(env: AppEnv, img: Image, qs: seq<Quad>, token: Token)
    returns (textBoxes: seq<TextBox>, signals: seq<Signal>)
    ensures textBoxes == Lines(env, img, qs) && signals == BoxSignals(img, qs, |qs|, token)
  {
    var total := |qs|;
    textBoxes := [];
    signals := [];
    var idx := 0;
    while idx < total
      invariant idx <= total
      invariant textBoxes == Lines(env, img, qs[..idx]) && signals == BoxSignals(img, qs, idx, token)
    {
      var line := LineOne(env, img, qs[idx]);
      LinesStep(env, img, qs, idx);
      signals := signals + [Progressed(idx + 1, total, token)];
      if line.None? {
        idx := idx + 1;
        continue;
      }
      textBoxes := textBoxes + [line.value];
      signals := signals + [Progressed(idx + 1, total, token)];
      idx := idx + 1;
    }
    assert qs[..idx] == qs;
  }

  /** `OCRThread.run`. */
  method OcrThreadRun(env: AppEnv, item: ImageItem, token: Token) returns (signals: seq<Signal>)
    ensures signals == ThreadSignals(env, item, token)
  {
    var img: Image;
    if item.path != "" {
      if item.path !in env.files {
        return [];
      }
      img := env.files[item.path];
    } else if item.pixmap.Some? {
      img := item.pixmap.value.image;
    } else {
      return [Finished([], None, token)];
    }
    var detected := DetectTextBoxes(env, img);
    if detected.None? {
      return [];
    }
    var qs := detected.value;
    var textBoxes;
    textBoxes, signals := RecognizeWithProgress(env, img, qs, token);
    signals := signals + [Finished(textBoxes, Some(img), token)];
  }

  // ---------------------------------------------------------------------------
  // BatchOCRThread.run (app/core/ocr.py, run.py)
  // ---------------------------------------------------------------------------

  /** A cache entry: the recognised boxes and the decoded image (None when the item had none). */
  type CacheValue = (seq<TextBox>, Option<Image>)

  /** The cache key of an item: its path, else its pixmap's digest, else none (the item is skipped). */
  function CacheKey(env: AppEnv, item: ImageItem): Option<string> {
    if item.path != "" then Some(item.path)
    else if item.pixmap.Some? then Some(env.md5(item.pixmap.value.png))
    else None
  }

  /** Where a batch stands: its results, its `progress(done, total)` values, the cache, and whether it raised. */
  datatype BatchState = BatchState(results: seq<(ImageItem, seq<TextBox>)>, progress: seq<(nat, nat)>,
                                   cache: map<string, CacheValue>, raised: bool)

  /** One item at position `idx`: a hit reuses the cached boxes, a miss recognises the image and caches it. */
  function BatchStep(env: AppEnv, st: BatchState, item: ImageItem, idx: nat, total: nat): BatchState {
    if st.raised then st
    else match CacheKey(env, item)
      case None => st
      case Some(key) =>
        if key in st.cache then
          st.(results := st.results + [(item, st.cache[key].0)], progress := st.progress + [(idx + 1, total)])
        else match Load(env, item)
          case Loaded(img) =>
            (match Detected(env, img)
             case None => st.(raised := true)
             case Some(qs) =>
               var boxes := Lines(env, img, qs);
               BatchState(st.results + [(item, boxes)], st.progress + [(idx + 1, total)], st.cache[key := (boxes, Some(img))], false))
          case _ => st.(raised := true)
  }

  /** The batch over the first `hi` items, starting from `cache`. */
  function Batch(env: AppEnv, cache: map<string, CacheValue>, items: seq<ImageItem>, hi: nat): BatchState
    requires hi <= |items|
  {
    if hi == 0 then BatchState([], [], cache, false)
    else BatchStep(env, Batch(env, cache, items, hi - 1), items[hi - 1], hi - 1, |items|)
  }

  /** The items that have a cache key, in order. */
  function Keyed(env: AppEnv, items: seq<ImageItem>): seq<ImageItem> {
    if items == [] then []
    else Keyed(env, items[..|items| - 1]) + (if CacheKey(env, items[|items| - 1]).Some? then [items[|items| - 1]] else [])
  }

  /** A batch that does not raise returns one result per item with a key, in input order, each with one progress value. */
  lemma {:induction false} BatchKeepsOrder(env: AppEnv, cache: map<string, CacheValue>, items: seq<ImageItem>, hi: nat)
    requires hi <= |items|
    ensures var b := Batch(env, cache, items, hi);
            !b.raised ==> |b.results| == |b.progress| && |b.results| == |Keyed(env, items[..hi])| &&
                          forall k :: 0 <= k < |b.results| ==> b.results[k].0 == Keyed(env, items[..hi])[k]
  {
    if hi > 0 {
      BatchKeepsOrder(env, cache, items, hi - 1);
      assert items[..hi][..hi - 1] == items[..hi - 1];
      StepOrder(env, Batch(env, cache, items, hi - 1), items[hi - 1], hi - 1, |items|);
      OrderAppend(Batch(env, cache, items, hi - 1), Batch(env, cache, items, hi), Keyed(env, items[..hi - 1]),
                  items[hi - 1], CacheKey(env, items[hi - 1]).Some?);
    }
  }

  /** `after` is `before` with one more result, for `item`. */
  ghost predicate AppendsItem(before: seq<(ImageItem, seq<TextBox>)>, after: seq<(ImageItem, seq<TextBox>)>, item: ImageItem) {
    |after| == |before| + 1 && after[..|before|] == before && after[|before|].0 == item
  }

  /** What one step does to the results and the progress when it does not raise. */
  lemma StepOrder(env: AppEnv, st: BatchState, item: ImageItem, idx: nat, total: nat)
    ensures var n := BatchStep(env, st, item, idx, total);
            !n.raised ==> !st.raised
    ensures var n := BatchStep(env, st, item, idx, total);
            !n.raised && CacheKey(env, item).None? ==> n.results == st.results && n.progress == st.progress
    ensures var n := BatchStep(env, st, item, idx, total);
            !n.raised && CacheKey(env, item).Some? ==>
              AppendsItem(st.results, n.results, item) && |n.progress| == |st.progress| + 1
  {
  }

  /** The order invariant carried over one step. */
  lemma OrderAppend(st: BatchState, n: BatchState, keyed: seq<ImageItem>, item: ImageItem, hasKey: bool)
    requires !st.raised ==> |st.results| == |st.progress| && |st.results| == |keyed| &&
                            forall k :: 0 <= k < |st.results| ==> st.results[k].0 == keyed[k]
    requires !n.raised ==> !st.raised
    requires !n.raised && !hasKey ==> n.results == st.results && n.progress == st.progress
    requires !n.raised && hasKey ==> AppendsItem(st.results, n.results, item) && |n.progress| == |st.progress| + 1
    ensures var keyed' := keyed + (if hasKey then [item] else []);
            !n.raised ==> |n.results| == |n.progress| && |n.results| == |keyed'| &&
                          forall k :: 0 <= k < |n.results| ==> n.results[k].0 == keyed'[k]
  {
    if !n.raised && hasKey {
      var keyed' := keyed + [item];
      forall k | 0 <= k < |n.results| ensures n.results[k].0 == keyed'[k] {
        if k < |st.results| {
          assert n.results[k] == n.results[..|st.results|][k];
        }
      }
    }
  }

  /** Progress values within 1..hi of `total`, rising strictly. */
  predicate ProgressWithin(progress: seq<(nat, nat)>, hi: nat, total: nat) {
    (forall k :: 0 <= k < |progress| ==> 1 <= progress[k].0 <= hi && progress[k].1 == total) &&
    (forall i, j :: 0 <= i < j < |progress| ==> progress[i].0 < progress[j].0)
  }

  /** The progress values lie within 1..total and rise strictly. */
  lemma {:induction false} BatchProgressRises(env: AppEnv, cache: map<string, CacheValue>, items: seq<ImageItem>, hi: nat)
    requires hi <= |items|
    ensures ProgressWithin(Batch(env, cache, items, hi).progress, hi, |items|)
  {
    if hi > 0 {
      BatchProgressRises(env, cache, items, hi - 1);
      StepProgress(env, Batch(env, cache, items, hi - 1), items[hi - 1], hi - 1, |items|);
      ProgressAppend(Batch(env, cache, items, hi - 1).progress, Batch(env, cache, items, hi).progress, hi, |items|);
    }
  }

  /** A step adds at most one progress value, `(idx + 1, total)`. */
  lemma StepProgress(env: AppEnv, st: BatchState, item: ImageItem, idx: nat, total: nat)
    ensures var n := BatchStep(env, st, item, idx, total);
            n.progress == st.progress || n.progress == st.progress + [(idx + 1, total)]
  {
  }

  lemma ProgressAppend(prev: seq<(nat, nat)>, now: seq<(nat, nat)>, hi: nat, total: nat)
    requires hi > 0 && ProgressWithin(prev, hi - 1, total)
    requires now == prev || now == prev + [(hi, total)]
    ensures ProgressWithin(now, hi, total)
  {
    assert forall k :: 0 <= k < |prev| ==> now[k] == prev[k];
  }

  /** `after` keeps every entry of `before`. */
  predicate Extends(before: map<string, CacheValue>, after: map<string, CacheValue>) {
    forall key :: key in before ==> key in after && after[key] == before[key]
  }

  /** Every result's key is cached. */
  predicate ResultsCached(env: AppEnv, results: seq<(ImageItem, seq<TextBox>)>, cache: map<string, CacheValue>) {
    forall k :: 0 <= k < |results| ==> CacheKey(env, results[k].0).Some? && CacheKey(env, results[k].0).value in cache
  }

  /** Entries cached before the batch are never overwritten, and every result's key ends up cached. */
  lemma {:induction false} BatchCacheGrows(env: AppEnv, cache: map<string, CacheValue>, items: seq<ImageItem>, hi: nat)
    requires hi <= |items|
    ensures var b := Batch(env, cache, items, hi);
            Extends(cache, b.cache) && ResultsCached(env, b.results, b.cache)
  {
    if hi > 0 {
      BatchCacheGrows(env, cache, items, hi - 1);
      StepCache(env, Batch(env, cache, items, hi - 1), items[hi - 1], hi - 1, |items|);
      CachedAppend(env, cache, Batch(env, cache, items, hi - 1), Batch(env, cache, items, hi), items[hi - 1]);
    }
  }

  /** A step only adds a missing entry, and a result it adds has its key cached. */
  lemma StepCache(env: AppEnv, st: BatchState, item: ImageItem, idx: nat, total: nat)
    ensures var n := BatchStep(env, st, item, idx, total);
            Extends(st.cache, n.cache) &&
            (n.results == st.results ||
             (AppendsItem(st.results, n.results, item) &&
              CacheKey(env, item).Some? && CacheKey(env, item).value in n.cache))
  {
  }

  lemma CachedAppend(env: AppEnv, cache: map<string, CacheValue>, st: BatchState, n: BatchState, item: ImageItem)
    requires Extends(cache, st.cache) && ResultsCached(env, st.results, st.cache)
    requires Extends(st.cache, n.cache)
    requires n.results == st.results ||
             (AppendsItem(st.results, n.results, item) &&
              CacheKey(env, item).Some? && CacheKey(env, item).value in n.cache)
    ensures Extends(cache, n.cache) && ResultsCached(env, n.results, n.cache)
  {
    assert forall k :: 0 <= k < |st.results| ==> n.results[k] == st.results[k];
  }

  /** An item without a key adds nothing. */
  lemma BatchSkips(env: AppEnv, cache: map<string, CacheValue>, items: seq<ImageItem>, idx: nat)
    requires idx < |items| && !Batch(env, cache, items, idx).raised && CacheKey(env, items[idx]).None?
    ensures Batch(env, cache, items, idx + 1) == Batch(env, cache, items, idx)
  {
  }

  /** A miss on an image that cannot be loaded or has no detector raises. */
  lemma BatchRaises(env: AppEnv, cache: map<string, CacheValue>, items: seq<ImageItem>, idx: nat)
    requires idx < |items| && !Batch(env, cache, items, idx).raised && CacheKey(env, items[idx]).Some?
    requires CacheKey(env, items[idx]).value !in Batch(env, cache, items, idx).cache
    requires !Load(env, items[idx]).Loaded? || Detected(env, Load(env, items[idx]).image).None?
    ensures Batch(env, cache, items, idx + 1) == Batch(env, cache, items, idx).(raised := true)
  {
  }

  /** A miss recognises the image and caches the boxes with it. */
  lemma BatchMisses(env: AppEnv, cache: map<string, CacheValue>, items: seq<ImageItem>, idx: nat, img: Image, qs: seq<Quad>)
    requires idx < |items| && !Batch(env, cache, items, idx).raised && CacheKey(env, items[idx]).Some?
    requires CacheKey(env, items[idx]).value !in Batch(env, cache, items, idx).cache
    requires Load(env, items[idx]) == Loaded(img) && Detected(env, img) == Some(qs)
    ensures var st := Batch(env, cache, items, idx);
            Batch(env, cache, items, idx + 1) ==
            BatchState(st.results + [(items[idx], Lines(env, img, qs))], st.progress + [(idx + 1, |items|)],
                       st.cache[CacheKey(env, items[idx]).value := (Lines(env, img, qs), Some(img))], false)
  {
  }

  /** A hit reuses the stored boxes. */
  lemma BatchHits(env: AppEnv, cache: map<string, CacheValue>, items: seq<ImageItem>, idx: nat)
    requires idx < |items| && !Batch(env, cache, items, idx).raised && CacheKey(env, items[idx]).Some?
    requires CacheKey(env, items[idx]).value in Batch(env, cache, items, idx).cache
    ensures var st := Batch(env, cache, items, idx);
            Batch(env, cache, items, idx + 1) ==
            st.(results := st.results + [(items[idx], st.cache[CacheKey(env, items[idx]).value].0)],
                progress := st.progress + [(idx + 1, |items|)])
  {
  }

  /**
   * One item of `BatchOCRThread.run` as written: a miss on an item without a
   * path reads the pixmap of `self.image_item`, which the batch thread does
   * not have, so it raises where `BatchStep` loads the item's own pixmap.
   */
  function BatchStepAsWritten(env: AppEnv, st: BatchState, item: ImageItem, idx: nat, total: nat): BatchState {
    if !st.raised && item.path == "" && CacheKey(env, item).Some? && CacheKey(env, item).value !in st.cache then
      st.(raised := true)
    else BatchStep(env, st, item, idx, total)
  }

  /** The batch as written over the first `hi` items. */
  function BatchAsWritten(env: AppEnv, cache: map<string, CacheValue>, items: seq<ImageItem>, hi: nat): BatchState
    requires hi <= |items|
  {
    if hi == 0 then BatchState([], [], cache, false)
    else BatchStepAsWritten(env, BatchAsWritten(env, cache, items, hi - 1), items[hi - 1], hi - 1, |items|)
  }

  /** Items that all have a path never reach the misread attribute: as written, the batch is `Batch`. */
  lemma {:induction false} AsWrittenWithPaths(env: AppEnv, cache: map<string, CacheValue>, items: seq<ImageItem>, hi: nat)
    requires hi <= |items| && forall k :: 0 <= k < hi ==> items[k].path != ""
    ensures BatchAsWritten(env, cache, items, hi) == Batch(env, cache, items, hi)
  {
    if hi > 0 {
      AsWrittenWithPaths(env, cache, items, hi - 1);
    }
  }

  /**
   * A pixmap without a path that is not cached ends the batch as written with
   * no result, where `Batch` recognises the pixmap when there is a detector.
   */
  lemma AsWrittenPixmapMissRaises(env: AppEnv, cache: map<string, CacheValue>, item: ImageItem)
    requires item.path == "" && item.pixmap.Some? && env.md5(item.pixmap.value.png) !in cache
    requires Detected(env, item.pixmap.value.image).Some?
    ensures BatchAsWritten(env, cache, [item], 1).raised && BatchAsWritten(env, cache, [item], 1).results == []
    ensures !Batch(env, cache, [item], 1).raised && |Batch(env, cache, [item], 1).results| == 1
  {
  }

  /** A miss in `BatchOCRThread.run`: load the image, detect and recognise; None where the source raises. */
  method RecognizeMiss(env: AppEnv, item: ImageItem) returns (r: Option<(seq<TextBox>, Image)>)
    ensures r.None? <==> !Load(env, item).Loaded? || Detected(env, Load(env, item).image).None?
    ensures r.Some? ==> Load(env, item) == Loaded(r.value.1) && Detected(env, r.value.1).Some? &&
                        r.value.0 == Lines(env, r.value.1, Detected(env, r.value.1).value)
  {
    var loaded := Load(env, item);
    if !loaded.Loaded? {
      return None;
    }
    var detected := DetectTextBoxes(env, loaded.image);
    if detected.None? {
      return None;
    }
    var boxes := GroupAndRecognizeLines(env, loaded.image, detected.value);
    r := Some((boxes, loaded.image));
  }

  /** A raising miss leaves the whole batch raised. */
  lemma BatchRaisesToEnd(env: AppEnv, cache: map<string, CacheValue>, items: seq<ImageItem>, idx: nat)
    requires idx < |items| && !Batch(env, cache, items, idx).raised && CacheKey(env, items[idx]).Some?
    requires CacheKey(env, items[idx]).value !in Batch(env, cache, items, idx).cache
    requires !Load(env, items[idx]).Loaded? || Detected(env, Load(env, items[idx]).image).None?
    ensures Batch(env, cache, items, |items|) == Batch(env, cache, items, idx).(raised := true)
  {
    BatchRaises(env, cache, items, idx);
    BatchRaisedStays(env, cache, items, idx + 1, |items|);
  }

  /** `BatchOCRThread.run`: `finished(results)` (None when it raised) and the progress values. */
  method BatchOcrRun(cache: AppCache.OCRCache<string, CacheValue>, env: AppEnv, items: seq<ImageItem>)
    returns (finished: Option<seq<(ImageItem, seq<TextBox>)>>, progress: seq<(nat, nat)>)
    requires cache.Valid()
    modifies cache
    ensures cache.Valid()
    ensures var b := Batch(env, old(cache.cache), items, |items|);
            cache.cache == b.cache && progress == b.progress && finished == (if b.raised then None else Some(b.results))
  {
    ghost var start := cache.cache;
    var results: seq<(ImageItem, seq<TextBox>)> := [];
    progress := [];
    var total := |items|;
    var idx := 0;
    while idx < total
      invariant idx <= total && cache.Valid()
      invariant Batch(env, start, items, idx) == BatchState(results, progress, cache.cache, false)
    {
      var item := items[idx];
      var key: string;
      if item.path != "" {
        key := item.path;
      } else if item.pixmap.Some? {
        key := env.md5(item.pixmap.value.png);
      } else {
        BatchSkips(env, start, items, idx);
        idx := idx + 1;
        continue;
      }
      var hit := cache.Contains(key);
      var boxes: seq<TextBox>;
      if hit {
        var stored := cache.GetItem(key);
        boxes := stored.value.0;
        BatchHits(env, start, items, idx);
      } else {
        var miss := RecognizeMiss(env, item);
        if miss.None? {
          BatchRaisesToEnd(env, start, items, idx);
          return None, progress;
        }
        boxes := miss.value.0;
        BatchMisses(env, start, items, idx, miss.value.1, Detected(env, miss.value.1).value);
        cache.SetItem(key, (boxes, Some(miss.value.1)));
      }
      results := results + [(item, boxes)];
      progress := progress + [(idx + 1, total)];
      idx := idx + 1;
    }
    finished := Some(results);
  }

  /** Once the batch raised, later items change nothing. */
  lemma {:induction false} BatchRaisedStays(env: AppEnv, cache: map<string, CacheValue>, items: seq<ImageItem>, hi: nat, later: nat)
    requires hi <= later <= |items| && Batch(env, cache, items, hi).raised
    ensures Batch(env, cache, items, later) == Batch(env, cache, items, hi)
    decreases later - hi
  {
    if hi < later {
      BatchRaisedStays(env, cache, items, hi, later - 1);
    }
  }
}
