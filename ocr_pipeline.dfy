/**
 * The server's OCR of one image and of a batch: a cache lookup by file and
 * then by image digest, detection (or the caller's boxes), recognition of
 * each box's clamped crop, progress reports, and the result stored under the
 * image digest. The detector, the recogniser, image decoding and hashing are
 * parameters.
 */
module OcrPipeline {
  import opened Wrappers
  import opened Geometry
  import opened Images
  import opened ContentCache

  /** `MangaTextBox`: its geometry, which may be negative, and its text. */
  datatype PipeBox = PipeBox(x: int, y: int, w: int, h: int, text: string)

  /** An image source: a path (`str` or `Path`), encoded bytes, or a decoded array. */
  datatype Source = FromPath(path: string) | FromBytes(data: seq<bv8>) | FromArray(image: Image)

  /**
   * The outside world: files and the digest, the decoder (None where
   * `cv2.imdecode` gives None), the detector (None when no model is loaded)
   * and the recogniser (None where it raises).
   */
  datatype Env = Env(files: Files, decode: seq<bv8> -> Option<Image>,
                     detector: Option<Image -> seq<Detection>>,
                     recognize: (Image, Rect) -> Option<string>)

  /** `progress_cb(done, total)`. */
  datatype Progress = Progress(done: nat, total: nat)

  /**
   * The exceptions `run_ocr_single` lets out: `open` of a path that is no
   * file, and `image_md5` of the None an undecodable image gives. The code as
   * written also raises `AttributeError` when it calls a cache method the
   * cache does not have.
   */
  datatype Error = FileNotFound | Undecodable | MissingAttribute

  type Entry = ContentCache.Entry<seq<PipeBox>, seq<PipeBox>>
  type Store = ContentCache.Store<seq<PipeBox>, seq<PipeBox>>

  // ---------------------------------------------------------------------------
  // detect_text_boxes
  // ---------------------------------------------------------------------------

  function DetectionBox(d: Detection): PipeBox {
    PipeBox(d.x1, d.y1, d.x2 - d.x1, d.y2 - d.y1, "")
  }

  /** The boxes of the detections of class `c`, in detection order. */
  function OfClass(dets: seq<Detection>, c: int): (r: seq<PipeBox>)
    ensures |r| <= |dets|
    ensures forall k :: 0 <= k < |r| ==> r[k].text == ""
  {
    if dets == [] then []
    else
      var d := dets[|dets| - 1];
      OfClass(dets[..|dets| - 1], c) + (if d.cls == c then [DetectionBox(d)] else [])
  }

  /** How many detections have class `c`. */
  function CountClass(dets: seq<Detection>, c: int): nat {
    if dets == [] then 0
    else CountClass(dets[..|dets| - 1], c) + (if dets[|dets| - 1].cls == c then 1 else 0)
  }

  /** Text boxes are class 3 and frames class 2. */
  function Detect(env: Env, img: Image): (seq<PipeBox>, seq<PipeBox>) {
    match env.detector
    case None => ([], [])
    case Some(detect) => (OfClass(detect(img), 3), OfClass(detect(img), 2))
  }

  /** One box per detection of class `c`, the others dropped. */
  lemma {:induction false} OfClassCount(dets: seq<Detection>, c: int)
    ensures |OfClass(dets, c)| == CountClass(dets, c)
  {
    if dets != [] {
      OfClassCount(dets[..|dets| - 1], c);
    }
  }

  /** Boxes and frames together are at most the detections, all of them when no other class occurs. */
  lemma {:induction false} ClassesSplit(dets: seq<Detection>)
    ensures CountClass(dets, 3) + CountClass(dets, 2) <= |dets|
    ensures (forall k :: 0 <= k < |dets| ==> dets[k].cls == 2 || dets[k].cls == 3) ==>
            CountClass(dets, 3) + CountClass(dets, 2) == |dets|
  {
    if dets != [] {
      var init := dets[..|dets| - 1];
      assert forall k :: 0 <= k < |init| ==> init[k] == dets[k];
      ClassesSplit(init);
    }
  }

  /** The loop of `detect_text_boxes`. */
  method DetectTextBoxes(env: Env, img: Image) returns (boxes: seq<PipeBox>, frames: seq<PipeBox>)
    ensures (boxes, frames) == Detect(env, img)
  {
    boxes, frames := [], [];
    if env.detector.None? {
      return;
    }
    var dets := env.detector.value(img);
    var i := 0;
    while i < |dets|
      invariant i <= |dets|
      invariant boxes == OfClass(dets[..i], 3) && frames == OfClass(dets[..i], 2)
    {
      assert dets[..i + 1][..i] == dets[..i];
      var box := DetectionBox(dets[i]);
      if dets[i].cls == 3 {
        boxes := boxes + [box];
      } else if dets[i].cls == 2 {
        frames := frames + [box];
      }
      i := i + 1;
    }
    assert dets[..i] == dets;
  }

  // ---------------------------------------------------------------------------
  // Recognition of each box
  // ---------------------------------------------------------------------------

  /** The box's geometry clamped to the image; None where recognition is skipped. */
  function Crop(b: PipeBox, img: Image): Option<Rect> {
    ClampToImage(b.x, b.y, b.w, b.h, img.width, img.height)
  }

  predicate Reaches(b: PipeBox, img: Image) {
    Crop(b, img).Some?
  }

  /** A box after the loop: only a box whose crop is not empty is recognised, and an exception gives "". */
  function Recognized(env: Env, img: Image, b: PipeBox): PipeBox {
    match Crop(b, img)
    case Some(crop) => b.(text := env.recognize(img, crop).GetOr(""))
    case None => b
  }

  function RecognizeAll(env: Env, img: Image, boxes: seq<PipeBox>): (r: seq<PipeBox>)
    ensures |r| == |boxes| && forall k :: 0 <= k < |boxes| ==> r[k] == Recognized(env, img, boxes[k])
  {
    seq(|boxes|, k requires 0 <= k < |boxes| => Recognized(env, img, boxes[k]))
  }

  /** `progress_cb(idx + 1, n)` for each box before `hi` that reached recognition, in order. */
  function ProgressOf(img: Image, boxes: seq<PipeBox>, hi: nat): seq<Progress>
    requires hi <= |boxes|
  {
    if hi == 0 then []
    else ProgressOf(img, boxes, hi - 1) + (if Reaches(boxes[hi - 1], img) then [Progress(hi, |boxes|)] else [])
  }

  /** Recognition writes only the text: every box keeps its place and geometry. */
  lemma RecognizeKeepsGeometry(env: Env, img: Image, boxes: seq<PipeBox>)
    ensures |RecognizeAll(env, img, boxes)| == |boxes|
    ensures forall k :: 0 <= k < |boxes| ==>
              var r := RecognizeAll(env, img, boxes)[k];
              r.x == boxes[k].x && r.y == boxes[k].y && r.w == boxes[k].w && r.h == boxes[k].h
    ensures forall k :: 0 <= k < |boxes| && !Reaches(boxes[k], img) ==> RecognizeAll(env, img, boxes)[k] == boxes[k]
  {
  }

  /** Each progress report counts a box from 1 to the number of boxes, and they rise strictly. */
  lemma {:induction false} ProgressRises(img: Image, boxes: seq<PipeBox>, hi: nat)
    requires hi <= |boxes|
    ensures forall k :: 0 <= k < |ProgressOf(img, boxes, hi)| ==>
              1 <= ProgressOf(img, boxes, hi)[k].done <= hi && ProgressOf(img, boxes, hi)[k].total == |boxes|
    ensures forall i, j :: 0 <= i < j < |ProgressOf(img, boxes, hi)| ==>
              ProgressOf(img, boxes, hi)[i].done < ProgressOf(img, boxes, hi)[j].done
    ensures |ProgressOf(img, boxes, hi)| <= hi
  {
    if hi > 0 {
      ProgressRises(img, boxes, hi - 1);
    }
  }

  /** The box loop of `run_ocr_single`: each reachable box gets its text and a progress report. */
  method RecognizeBoxes(env: Env, img: Image, boxes: seq<PipeBox>) returns (out: seq<PipeBox>, progress: seq<Progress>)
    ensures out == RecognizeAll(env, img, boxes) && progress == ProgressOf(img, boxes, |boxes|)
  {
    out := boxes;
    progress := [];
    var idx := 0;
    assert RecognizedUpTo(env, img, boxes, 0, out, progress);
    while idx < |boxes|
      invariant idx <= |boxes| && RecognizedUpTo(env, img, boxes, idx, out, progress)
    {
      var recognized, reached := RecognizeOne(env, img, boxes[idx]);
      RecognizeStep(env, img, boxes, idx, out, progress);
      if !reached {
        idx := idx + 1;
        continue;
      }
      out := out[idx := recognized];
      progress := progress + [Progress(idx + 1, |boxes|)];
      idx := idx + 1;
    }
    RecognizedAll(env, img, boxes, out, progress);
  }

  /** The boxes before `idx` are recognised, the others still as given, and the reports so far made. */
  ghost predicate RecognizedUpTo(env: Env, img: Image, boxes: seq<PipeBox>, idx: nat, out: seq<PipeBox>, progress: seq<Progress>) {
    idx <= |boxes| && out == RecognizeAll(env, img, boxes[..idx]) + boxes[idx..] && progress == ProgressOf(img, boxes, idx)
  }

  /** One more box: recognised in place and reported when its crop is not empty, left as it is otherwise. */
  lemma RecognizeStep(env: Env, img: Image, boxes: seq<PipeBox>, idx: nat, out: seq<PipeBox>, progress: seq<Progress>)
    requires idx < |boxes| && RecognizedUpTo(env, img, boxes, idx, out, progress)
    ensures Reaches(boxes[idx], img) ==>
              RecognizedUpTo(env, img, boxes, idx + 1, out[idx := Recognized(env, img, boxes[idx])], progress + [Progress(idx + 1, |boxes|)])
    ensures !Reaches(boxes[idx], img) ==> RecognizedUpTo(env, img, boxes, idx + 1, out, progress)
  {
    var a := out[idx := Recognized(env, img, boxes[idx])];
    var b := RecognizeAll(env, img, boxes[..idx + 1]) + boxes[idx + 1..];
    forall k | 0 <= k < |a| ensures a[k] == b[k] {
      if k < idx {
        assert boxes[..idx][k] == boxes[..idx + 1][k];
      }
    }
    assert out[idx] == boxes[idx];
  }

  lemma RecognizedAll(env: Env, img: Image, boxes: seq<PipeBox>, out: seq<PipeBox>, progress: seq<Progress>)
    requires RecognizedUpTo(env, img, boxes, |boxes|, out, progress)
    ensures out == RecognizeAll(env, img, boxes) && progress == ProgressOf(img, boxes, |boxes|)
  {
    assert boxes[..|boxes|] == boxes;
  }

  /** The body of the box loop: clamp the box to the image and, when the crop is not empty, recognise it. */
  method RecognizeOne(env: Env, img: Image, b: PipeBox) returns (recognized: PipeBox, reached: bool)
    ensures reached == Reaches(b, img) && recognized == Recognized(env, img, b)
  {
    var x, y := Max(0, b.x), Max(0, b.y);
    var w, h := Min(b.w, img.width - x), Min(b.h, img.height - y);
    CropIs(b, img, x, y, w, h);
    if w <= 0 || h <= 0 {
      return b, false;
    }
    var text := env.recognize(img, Rect(x, y, w, h));
    recognized := b.(text := if text.Some? then text.value else "");
    reached := true;
  }

  /** The crop the loop computes inline. */
  lemma CropIs(b: PipeBox, img: Image, x: int, y: int, w: int, h: int)
    requires x == Max(0, b.x) && y == Max(0, b.y) && w == Min(b.w, img.width - x) && h == Min(b.h, img.height - y)
    ensures w <= 0 || h <= 0 ==> Crop(b, img).None?
    ensures w > 0 && h > 0 ==> Crop(b, img) == Some(Rect(x, y, w, h))
  {
  }

  // ---------------------------------------------------------------------------
  // run_ocr_single
  // ---------------------------------------------------------------------------

  /**
   * `load_image`, with the `image_md5` call that follows it: a path that is
   * no file raises, and so do bytes the decoder cannot read, once their
   * digest is taken.
   */
  function LoadImage(env: Env, src: Source): (r: Result<Image, Error>)
    ensures r == Err(FileNotFound) <==> src.FromPath? && src.path !in env.files.bytes
    ensures r == Err(Undecodable) <==>
              (src.FromPath? && src.path in env.files.bytes && env.decode(env.files.bytes[src.path]).None?) ||
              (src.FromBytes? && env.decode(src.data).None?)
    ensures src.FromArray? ==> r == Ok(src.image)
  {
    match src
    case FromPath(p) => if p in env.files.bytes then Decoded(env.decode(env.files.bytes[p])) else Err(FileNotFound)
    case FromBytes(data) => Decoded(env.decode(data))
    case FromArray(img) => Ok(img)
  }

  /** `cv2.imdecode`'s result as `image_md5` takes it: None raises. */
  function Decoded(img: Option<Image>): Result<Image, Error> {
    match img
    case None => Err(Undecodable)
    case Some(i) => Ok(i)
  }

  /** `image_md5`. */
  function ImageMd5(env: Env, img: Image): string {
    env.files.digest(img.pixels)
  }

  /** What one call does: its result or exception, its progress reports, and the cache afterwards (None: no cache). */
  datatype Run = Run(result: Result<Entry, Error>, progress: seq<Progress>, store: Option<Store>)

  /** The cache hit by path, for a path source when the cache is used. */
  function PathHit(store: Option<Store>, env: Env, src: Source, useCache: bool): Option<Entry> {
    if useCache && store.Some? && src.FromPath? then GetPath(store.value, env.files, src.path) else None
  }

  /** The cache hit by digest, when the cache is used. */
  function Md5Hit(store: Option<Store>, md5: string, useCache: bool): Option<Entry> {
    if useCache && store.Some? then GetMd5(store.value, md5) else None
  }

  /** The boxes and frames recognition starts from: the caller's boxes when there are any, else the detector's. */
  function Start(env: Env, img: Image, provided: seq<PipeBox>): (seq<PipeBox>, seq<PipeBox>) {
    if provided != [] then (provided, []) else Detect(env, img)
  }

  /** `run_ocr_single(source, provided_boxes, progress_cb, use_cache)`. */
  function Single(store: Option<Store>, env: Env, src: Source, provided: seq<PipeBox>, useCache: bool): Run {
    var byPath := PathHit(store, env, src, useCache);
    if byPath.Some? then Run(Ok(byPath.value), [], store)
    else match LoadImage(env, src)
      case Err(e) => Run(Err(e), [], store)
      case Ok(img) =>
        var md5 := ImageMd5(env, img);
        var byMd5 := Md5Hit(store, md5, useCache);
        if byMd5.Some? then Run(Ok(byMd5.value), [], store)
        else
          var (boxes, frames) := Start(env, img, provided);
          var out := RecognizeAll(env, img, boxes);
          var after := if store.Some? then Some(SetMd5(store.value, md5, out, frames)) else None;
          Run(Ok(Entry(out, frames, md5)), ProgressOf(img, boxes, |boxes|), after)
  }

  /** A hit by path or by digest returns the stored entry and neither detects, reports nor stores. */
  lemma CacheHitShortCircuits(store: Option<Store>, env: Env, src: Source, provided: seq<PipeBox>, useCache: bool)
    requires useCache && store.Some?
    requires (src.FromPath? && GetPath(store.value, env.files, src.path).Some?) ||
             (LoadImage(env, src).Ok? && GetMd5(store.value, ImageMd5(env, LoadImage(env, src).value)).Some?)
    ensures Single(store, env, src, provided, useCache).result.Ok?
    ensures Single(store, env, src, provided, useCache).progress == []
    ensures Single(store, env, src, provided, useCache).store == store
  {
  }

  /** With the cache off nothing is looked up, yet the result is still stored under the image digest. */
  lemma NoCacheStillStores(store: Store, env: Env, src: Source, provided: seq<PipeBox>)
    requires LoadImage(env, src).Ok?
    ensures var img := LoadImage(env, src).value;
            var r := Single(Some(store), env, src, provided, false);
            r.result.Ok? &&
            r.store == Some(SetMd5(store, ImageMd5(env, img), r.result.value.boxes, r.result.value.frames)) &&
            r.result.value.md5 == ImageMd5(env, img)
  {
  }

  /** Boxes given by the caller bypass the detector: no frames, and the caller's boxes with their texts. */
  lemma ProvidedBoxesBypass(env: Env, src: Source, provided: seq<PipeBox>)
    requires provided != [] && LoadImage(env, src).Ok?
    ensures var r := Single(None, env, src, provided, false);
            r.result.Ok? && r.result.value.frames == [] &&
            r.result.value.boxes == RecognizeAll(env, LoadImage(env, src).value, provided)
  {
  }

  /** A path that is no file raises before anything is stored, unless the path is found in the cache. */
  lemma MissingFileRaises(store: Option<Store>, env: Env, p: string, provided: seq<PipeBox>, useCache: bool)
    requires p !in env.files.bytes
    ensures Single(store, env, FromPath(p), provided, useCache).result.Err? ||
            Single(store, env, FromPath(p), provided, useCache).progress == []
    ensures Single(store, env, FromPath(p), provided, useCache).store == store
  {
  }

  /** Bytes the decoder cannot read raise before anything is reported or stored. */
  lemma UndecodableRaises(store: Option<Store>, env: Env, data: seq<bv8>, provided: seq<PipeBox>, useCache: bool)
    requires env.decode(data).None?
    ensures Single(store, env, FromBytes(data), provided, useCache) == Run(Err(Undecodable), [], store)
  {
  }

  /**
   * `run_ocr_single` as written: the digest lookup and store call
   * `get_for_md5` and `set_for_md5`, which the cache does not define (it has
   * `get_by_md5` and `set_by_md5`), so either call raises. With the cache on,
   * every image not found by path raises at the lookup; with it off, the
   * store raises once recognition has reported its progress.
   */
  function SingleAsWritten(store: Option<Store>, env: Env, src: Source, provided: seq<PipeBox>, useCache: bool): Run {
    var byPath := PathHit(store, env, src, useCache);
    if byPath.Some? then Run(Ok(byPath.value), [], store)
    else match LoadImage(env, src)
      case Err(e) => Run(Err(e), [], store)
      case Ok(img) =>
        if useCache && store.Some? then Run(Err(MissingAttribute), [], store)
        else
          var (boxes, frames) := Start(env, img, provided);
          var out := RecognizeAll(env, img, boxes);
          if store.Some? then Run(Err(MissingAttribute), ProgressOf(img, boxes, |boxes|), store)
          else Run(Ok(Entry(out, frames, ImageMd5(env, img))), ProgressOf(img, boxes, |boxes|), None)
  }

  /** Without a cache the misnamed calls are never reached, and the code as written does what `Single` does. */
  lemma AsWrittenWithoutCache(env: Env, src: Source, provided: seq<PipeBox>, useCache: bool)
    ensures SingleAsWritten(None, env, src, provided, useCache) == Single(None, env, src, provided, useCache)
  {
  }

  /**
   * With a cache, an image that loads and is not found by path raises
   * `AttributeError` as written and stores nothing, where `Single` returns
   * its entry: a found digest entry, or the recognised boxes, which it stores.
   */
  lemma AsWrittenRaisesWithCache(store: Store, env: Env, src: Source, provided: seq<PipeBox>, useCache: bool)
    requires LoadImage(env, src).Ok? && PathHit(Some(store), env, src, useCache).None?
    ensures SingleAsWritten(Some(store), env, src, provided, useCache).result == Err(MissingAttribute)
    ensures SingleAsWritten(Some(store), env, src, provided, useCache).store == Some(store)
    ensures Single(Some(store), env, src, provided, useCache).result.Ok?
  {
  }

  /** `run_ocr_single`, writing to `cache` when there is one. */
  method RunOcrSingle(cache: OCRCache?<seq<PipeBox>, seq<PipeBox>>, env: Env, src: Source,
                      provided: seq<PipeBox>, useCache: bool)
    returns (result: Result<Entry, Error>, progress: seq<Progress>)
    requires cache != null ==> cache.Valid()
    modifies cache
    ensures cache != null ==> cache.Valid()
    ensures var run := Single(old(StoreOf(cache)), env, src, provided, useCache);
            result == run.result && progress == run.progress && StoreOf(cache) == run.store
  {
    progress := [];
    if useCache && cache != null && src.FromPath? {
      var cached := cache.GetForPath(env.files, src.path);
      if cached.Some? {
        return Ok(cached.value), [];
      }
    }
    var loaded := LoadImage(env, src);
    if loaded.Err? {
      return Err(loaded.error), [];
    }
    var img := loaded.value;
    var md5 := ImageMd5(env, img);
    if useCache && cache != null {
      var cached := cache.GetByMd5(md5);
      if cached.Some? {
        return Ok(cached.value), [];
      }
    }
    var boxes, frames;
    if provided != [] {
      boxes, frames := provided, [];
    } else {
      boxes, frames := DetectTextBoxes(env, img);
    }
    var out;
    out, progress := RecognizeBoxes(env, img, boxes);
    if cache != null {
      cache.SetByMd5(md5, out, frames);
    }
    result := Ok(Entry(out, frames, md5));
  }

  // ---------------------------------------------------------------------------
  // run_ocr_batch
  // ---------------------------------------------------------------------------

  /** What a batch does: the results in source order, or the first exception, the reports, and the cache afterwards. */
  datatype BatchRun = BatchRun(results: Result<seq<Entry>, Error>, progress: seq<Progress>, store: Option<Store>)

  /** `run_ocr_batch` over the sources before `hi`: report `(idx, n)` before each, then run it with the defaults. */
  function Batch(store: Option<Store>, env: Env, sources: seq<Source>, hi: nat): BatchRun
    requires hi <= |sources|
  {
    if hi == 0 then BatchRun(Ok([]), [], store)
    else
      var prev := Batch(store, env, sources, hi - 1);
      if prev.results.Err? then prev
      else
        var run := Single(prev.store, env, sources[hi - 1], [], true);
        var progress := prev.progress + [Progress(hi - 1, |sources|)];
        match run.result
        case Err(e) => BatchRun(Err(e), progress, run.store)
        case Ok(entry) => BatchRun(Ok(prev.results.value + [entry]), progress, run.store)
  }

  /** A batch that completes has one result per source, in order, and reports `(idx, n)` for each. */
  lemma {:induction false} BatchShape(store: Option<Store>, env: Env, sources: seq<Source>, hi: nat)
    requires hi <= |sources|
    ensures var b := Batch(store, env, sources, hi);
            b.results.Ok? ==> |b.results.value| == hi && b.progress == ProgressUpTo(|sources|, hi)
  {
    if hi > 0 {
      BatchShape(store, env, sources, hi - 1);
      ProgressSnoc(|sources|, hi - 1);
    }
  }

  lemma ProgressSnoc(n: nat, hi: nat)
    ensures ProgressUpTo(n, hi + 1) == ProgressUpTo(n, hi) + [Progress(hi, n)]
  {
  }

  /** `(0, n), (1, n), ..., (hi - 1, n)`. */
  function ProgressUpTo(n: nat, hi: nat): (r: seq<Progress>)
    ensures |r| == hi && forall k :: 0 <= k < hi ==> r[k] == Progress(k, n)
  {
    seq(hi, k requires 0 <= k < hi => Progress(k, n))
  }

  /** Each result of a completed batch is what that source gives against the cache the earlier ones left. */
  lemma {:induction false} BatchResultsInOrder(store: Option<Store>, env: Env, sources: seq<Source>, hi: nat, k: nat)
    requires k < hi <= |sources| && Batch(store, env, sources, hi).results.Ok?
    ensures BatchShapeOk(store, env, sources, hi, k)
  {
    BatchShape(store, env, sources, hi);
    if k < hi - 1 {
      BatchResultsInOrder(store, env, sources, hi - 1, k);
    } else {
      BatchShape(store, env, sources, hi - 1);
    }
  }

  predicate BatchShapeOk(store: Option<Store>, env: Env, sources: seq<Source>, hi: nat, k: nat)
    requires k < hi <= |sources|
  {
    var b := Batch(store, env, sources, hi);
    var before := Batch(store, env, sources, k);
    b.results.Ok? && |b.results.value| == hi && before.results.Ok? &&
    Single(before.store, env, sources[k], [], true).result.Ok? &&
    b.results.value[k] == Single(before.store, env, sources[k], [], true).result.value
  }

  /** The first exception ends the batch: later sources are neither reported nor run. */
  lemma {:induction false} BatchErrorStops(store: Option<Store>, env: Env, sources: seq<Source>, hi: nat, later: nat)
    requires hi <= later <= |sources| && Batch(store, env, sources, hi).results.Err?
    ensures Batch(store, env, sources, later) == Batch(store, env, sources, hi)
    decreases later - hi
  {
    if hi < later {
      BatchErrorStops(store, env, sources, hi, later - 1);
    }
  }

  /** One more source: its report, then its run against the cache the earlier ones left. */
  lemma BatchAdvance(store: Option<Store>, env: Env, sources: seq<Source>, hi: nat, done: seq<Entry>, run: Run)
    requires hi < |sources| && Batch(store, env, sources, hi).results == Ok(done)
    requires run == Single(Batch(store, env, sources, hi).store, env, sources[hi], [], true)
    ensures Batch(store, env, sources, hi + 1) ==
            BatchRun(if run.result.Ok? then Ok(done + [run.result.value]) else Err(run.result.error),
                     Batch(store, env, sources, hi).progress + [Progress(hi, |sources|)], run.store)
  {
  }

  /** An undecodable source ends the batch with `Undecodable`, after its report. */
  lemma BatchStopsAtUndecodable(store: Option<Store>, env: Env, sources: seq<Source>, hi: nat)
    requires hi < |sources| && Batch(store, env, sources, hi).results.Ok?
    requires sources[hi].FromBytes? && env.decode(sources[hi].data).None?
    ensures forall later :: hi < later <= |sources| ==>
              Batch(store, env, sources, later).results == Err(Undecodable) &&
              Batch(store, env, sources, later).progress == Batch(store, env, sources, hi).progress + [Progress(hi, |sources|)]
  {
    UndecodableRaises(Batch(store, env, sources, hi).store, env, sources[hi].data, [], true);
    forall later | hi < later <= |sources|
      ensures Batch(store, env, sources, later) == Batch(store, env, sources, hi + 1)
    {
      BatchErrorStops(store, env, sources, hi + 1, later);
    }
  }

  /** The cache's contents, None when there is no cache. */
  function StoreOf(cache: OCRCache?<seq<PipeBox>, seq<PipeBox>>): Option<Store>
    reads cache
  {
    if cache == null then None else Some(cache.Model())
  }

  /** `run_ocr_batch`. */
  method RunOcrBatch(cache: OCRCache?<seq<PipeBox>, seq<PipeBox>>, env: Env, sources: seq<Source>)
    returns (results: Result<seq<Entry>, Error>, progress: seq<Progress>)
    requires cache != null ==> cache.Valid()
    modifies cache
    ensures cache != null ==> cache.Valid()
    ensures var b := Batch(old(StoreOf(cache)), env, sources, |sources|);
            results == b.results && progress == b.progress && StoreOf(cache) == b.store
  {
    ghost var start := StoreOf(cache);
    var done: seq<Entry> := [];
    progress := [];
    var idx := 0;
    while idx < |sources|
      invariant idx <= |sources|
      invariant cache != null ==> cache.Valid()
      invariant Batch(start, env, sources, idx) == BatchRun(Ok(done), progress, StoreOf(cache))
    {
      ghost var before := Batch(start, env, sources, idx);
      progress := progress + [Progress(idx, |sources|)];
      var r, p := RunOcrSingle(cache, env, sources[idx], [], true);
      ghost var run := Run(r, p, StoreOf(cache));
      assert run == Single(before.store, env, sources[idx], [], true);
      BatchAdvance(start, env, sources, idx, done, run);
      if r.Err? {
        BatchErrorStops(start, env, sources, idx + 1, |sources|);
        return Err(r.error), progress;
      }
      done := done + [r.value];
      idx := idx + 1;
    }
    results := Ok(done);
  }
}
