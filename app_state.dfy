/**
 * The desktop application's own state: the undo history of the image list,
 * path and boxes; the add and delete box modes; the token that discards
 * signals of a superseded OCR thread; the cache write when OCR finishes; the
 * selection after deleting an image; the normalised rectangle of an added
 * box; and the test for a manga page.
 */
module AppState {
  import opened Wrappers
  import opened Text
  import opened Geometry
  import opened Images
  import AppCache
  import opened OcrThreads

  /** The most snapshots `save_history` keeps. */
  const MaxHistory := 100

  /** One history entry: the image list, the current path ("" for None) and the boxes. */
  datatype Snapshot = Snapshot(images: seq<ImageItem>, path: string, boxes: seq<TextBox>)

  /** The OCR progress bar. */
  datatype ProgressBar = ProgressBar(value: int, maximum: int, visible: bool)

  /**
   * The state the modelled operations read and write: the image list, the
   * current path ("" for None), the boxes, the history, the box modes, the
   * current image token (None before any image was loaded), the progress bar,
   * the list's current row, and the PNG of the pixmap last displayed.
   */
  datatype View = View(images: seq<ImageItem>, path: string, boxes: seq<TextBox>, history: seq<Snapshot>,
                       addMode: bool, deleteMode: bool, token: Token, bar: ProgressBar, row: int,
                       lastPng: Option<seq<bv8>>)

  /** What the application keeps true: a bounded history, exclusive modes, a row of the list or -1. */
  predicate WellFormed(v: View) {
    |v.history| <= MaxHistory && !(v.addMode && v.deleteMode) && -1 <= v.row < |v.images|
  }

  /** The empty application. */
  function Initial(): (v: View)
    ensures WellFormed(v)
  {
    View([], "", [], [], false, false, None, ProgressBar(0, 100, false), -1, None)
  }

  // ---------------------------------------------------------------------------
  // save_history and undo_action
  // ---------------------------------------------------------------------------

  function Current(v: View): Snapshot {
    Snapshot(v.images, v.path, v.boxes)
  }

  /** `save_history`: append the current state, dropping the oldest beyond the bound. */
  function Saved(v: View): View {
    var h := v.history + [Current(v)];
    v.(history := if |h| > MaxHistory then h[1..] else h)
  }

  /** The history stays bounded, ends with the current state, and loses only its oldest entry when full. */
  lemma SavedHistory(v: View)
    requires |v.history| <= MaxHistory
    ensures var h := Saved(v).history;
            |h| <= MaxHistory && h != [] && h[|h| - 1] == Current(v) &&
            (|v.history| < MaxHistory ==> h == v.history + [Current(v)]) &&
            (|v.history| == MaxHistory ==> h == v.history[1..] + [Current(v)])
  {
  }

  /** The first list position holding `path`. */
  function FirstWithPath(images: seq<ImageItem>, path: string): (r: Option<nat>)
    ensures r.Some? ==> r.value < |images| && images[r.value].path == path &&
                        forall k :: 0 <= k < r.value ==> images[k].path != path
    ensures r.None? ==> forall k :: 0 <= k < |images| ==> images[k].path != path
  {
    if images == [] then None
    else if images[0].path == path then Some(0)
    else match FirstWithPath(images[1..], path)
      case None => None
      case Some(k) => Some(k + 1)
  }

  /** `display_image_with_boxes` remembers the pixmap of the image it shows. */
  function Shown(v: View, img: Option<Image>, png: Image -> seq<bv8>): View {
    if img.Some? then v.(lastPng := Some(png(img.value))) else v
  }

  /**
   * `undo_action`: nothing without history; otherwise restore the last
   * snapshot and drop it. The restored path is selected and shown when the
   * list holds it; otherwise no row is selected and the boxes are cleared.
   */
  function Undone(v: View, files: map<string, Image>, png: Image -> seq<bv8>): View {
    if v.history == [] then v
    else
      var snap := v.history[|v.history| - 1];
      var restored := v.(images := snap.images, path := snap.path, boxes := snap.boxes,
                         history := v.history[..|v.history| - 1], row := -1);
      var found := if snap.path != "" then FirstWithPath(snap.images, snap.path) else None;
      match found
      case None => restored.(boxes := [])
      case Some(k) => Shown(restored.(row := k), if snap.path in files then Some(files[snap.path]) else None, png)
  }

  /**
   * Whether `undo_action` raises: the restored path is in the restored list,
   * so `imread_unicode` opens it, and `open` raises FileNotFoundError when no
   * file is at that path (`onDisk` holds the paths of the files that exist).
   */
  predicate UndoRaises(v: View, onDisk: set<string>) {
    v.history != [] &&
    var snap := v.history[|v.history| - 1];
    snap.path != "" && FirstWithPath(snap.images, snap.path).Some? && snap.path !in onDisk
  }

  /**
   * The three outcomes of undo for a listed path: a file that is gone raises
   * after the list, path, boxes and row are restored, and nothing is shown; a
   * file that exists but does not decode is not shown and raises nothing; a
   * decodable file is shown. An unlisted or empty path never raises.
   */
  lemma UndoOutcomes(v: View, files: map<string, Image>, onDisk: set<string>, png: Image -> seq<bv8>)
    requires files.Keys <= onDisk && v.history != []
    ensures var snap := v.history[|v.history| - 1];
            var found := if snap.path != "" then FirstWithPath(snap.images, snap.path) else None;
            var u := Undone(v, files, png);
            (found.None? ==> !UndoRaises(v, onDisk) && u.row == -1 && u.boxes == [] && u.lastPng == v.lastPng) &&
            (found.Some? && snap.path !in onDisk ==>
               UndoRaises(v, onDisk) && u.row == found.value && u.boxes == snap.boxes && u.lastPng == v.lastPng) &&
            (found.Some? && snap.path in onDisk && snap.path !in files ==>
               !UndoRaises(v, onDisk) && u.row == found.value && u.lastPng == v.lastPng) &&
            (found.Some? && snap.path in files ==>
               !UndoRaises(v, onDisk) && u.row == found.value && u.lastPng == Some(png(files[snap.path])))
  {
    var snap := v.history[|v.history| - 1];
    var found := if snap.path != "" then FirstWithPath(snap.images, snap.path) else None;
    UndoneCases(v, files, png, snap, found);
  }

  /** Undo right after a save gives back the list and path saved, and the history before the save. */
  lemma UndoAfterSave(v: View, files: map<string, Image>, png: Image -> seq<bv8>)
    requires |v.history| < MaxHistory
    ensures var u := Undone(Saved(v), files, png);
            u.images == v.images && u.path == v.path && u.history == v.history &&
            (u.boxes == v.boxes || u.boxes == [])
  {
    assert Saved(v).history == v.history + [Current(v)];
    assert (v.history + [Current(v)])[..|v.history|] == v.history;
  }

  /** Undo keeps the state well formed, and changes nothing without history. */
  lemma UndoneWellFormed(v: View, files: map<string, Image>, png: Image -> seq<bv8>)
    requires WellFormed(v)
    ensures WellFormed(Undone(v, files, png))
    ensures v.history == [] ==> Undone(v, files, png) == v
    ensures v.history != [] ==> |Undone(v, files, png).history| == |v.history| - 1
  {
  }

  /** Undo with history, field by field, given the last snapshot and the row found for its path. */
  lemma UndoneCases(v: View, files: map<string, Image>, png: Image -> seq<bv8>, snap: Snapshot, found: Option<nat>)
    requires v.history != [] && snap == v.history[|v.history| - 1]
    requires found == if snap.path != "" then FirstWithPath(snap.images, snap.path) else None
    ensures Undone(v, files, png) ==
            View(snap.images, snap.path, if found.Some? then snap.boxes else [], v.history[..|v.history| - 1],
                 v.addMode, v.deleteMode, v.token, v.bar, if found.Some? then found.value else -1,
                 if found.Some? && snap.path in files then Some(png(files[snap.path])) else v.lastPng)
  {
  }

  /** The search of `undo_action` for the restored path. */
  method FindPath(images: seq<ImageItem>, path: string) returns (found: Option<nat>)
    ensures found == FirstWithPath(images, path)
  {
    var i := 0;
    while i < |images| && images[i].path != path
      invariant i <= |images| && forall k :: 0 <= k < i ==> images[k].path != path
    {
      i := i + 1;
    }
    found := if i < |images| then Some(i) else None;
  }

  // ---------------------------------------------------------------------------
  // enable_add_box_mode and enable_del_box_mode
  // ---------------------------------------------------------------------------

  /** `enable_add_box_mode`: off when on; otherwise on, with delete mode off. */
  function AddToggled(v: View): View {
    if v.addMode then v.(addMode := false) else v.(addMode := true, deleteMode := false)
  }

  /** `enable_del_box_mode`: off when on; otherwise on, with add mode off. */
  function DelToggled(v: View): View {
    if v.deleteMode then v.(deleteMode := false) else v.(deleteMode := true, addMode := false)
  }

  /** Each toggle flips its own mode, leaves the other off, and never turns both on. */
  lemma TogglesExclusive(v: View)
    requires !(v.addMode && v.deleteMode)
    ensures AddToggled(v).addMode == !v.addMode && !AddToggled(v).deleteMode
    ensures DelToggled(v).deleteMode == !v.deleteMode && !DelToggled(v).addMode
    ensures AddToggled(AddToggled(v)).addMode == v.addMode
  {
  }

  // ---------------------------------------------------------------------------
  // update_ocr_progress and on_ocr_finished
  // ---------------------------------------------------------------------------

  /** A signal is taken unless both tokens are set and differ. */
  predicate Accepts(current: Token, token: Token) {
    current.None? || token.None? || token == current
  }

  /** `update_ocr_progress`. */
  function ProgressShown(v: View, current: int, total: int, token: Token): View {
    if !Accepts(v.token, token) then v else v.(bar := v.bar.(value := current, maximum := total))
  }

  /** `on_ocr_finished` on the view: hide the bar, take the boxes, show the image. */
  function FinishShown(v: View, boxes: seq<TextBox>, img: Option<Image>, token: Token, png: Image -> seq<bv8>): View {
    if !Accepts(v.token, token) then v
    else Shown(v.(bar := v.bar.(visible := false), boxes := boxes), img, png)
  }

  /** The key `on_ocr_finished` caches under: the current path, else the digest of the pixmap last shown. */
  function FinishKey(v: View, img: Option<Image>, token: Token, png: Image -> seq<bv8>, md5: seq<bv8> -> string): Option<string> {
    if !Accepts(v.token, token) then None
    else
      var after := Shown(v, img, png);
      if after.path != "" then Some(after.path)
      else if after.lastPng.Some? then Some(md5(after.lastPng.value))
      else None
  }

  /** A signal applied to the view. */
  function Apply(v: View, s: Signal, png: Image -> seq<bv8>): View {
    match s
    case Progressed(current, total, token) => ProgressShown(v, current, total, token)
    case Finished(boxes, img, token) => FinishShown(v, boxes, img, token, png)
  }

  function ApplyAll(v: View, signals: seq<Signal>, png: Image -> seq<bv8>): View
    decreases |signals|
  {
    if signals == [] then v else ApplyAll(Apply(v, signals[0], png), signals[1..], png)
  }

  /** Signals tagged with a token other than the current one change nothing and cache nothing. */
  lemma {:induction false} StaleSignalsIgnored(v: View, signals: seq<Signal>, t: nat, png: Image -> seq<bv8>,
                                              md5: seq<bv8> -> string)
    requires v.token.Some? && v.token != Some(t)
    requires forall k :: 0 <= k < |signals| ==> signals[k].token == Some(t)
    ensures ApplyAll(v, signals, png) == v
    ensures forall k :: 0 <= k < |signals| && signals[k].Finished? ==> FinishKey(v, signals[k].image, signals[k].token, png, md5).None?
  {
    if signals != [] {
      assert Apply(v, signals[0], png) == v;
      StaleSignalsIgnored(v, signals[1..], t, png, md5);
    }
  }

  /** A superseded `OCRThread` leaves the view as it is, whatever it emits. */
  lemma SupersededThreadIgnored(v: View, env: AppEnv, item: ImageItem, t: nat, png: Image -> seq<bv8>)
    requires v.token.Some? && v.token != Some(t)
    ensures ApplyAll(v, ThreadSignals(env, item, Some(t)), png) == v
  {
    ThreadSignalsTagged(env, item, Some(t));
    StaleSignalsIgnored(v, ThreadSignals(env, item, Some(t)), t, png, env.md5);
  }

  /** Signals of the current thread, or without a token, are taken. */
  lemma CurrentSignalsTaken(v: View, current: int, total: int, token: Token)
    requires token.None? || token == v.token
    ensures ProgressShown(v, current, total, token).bar == v.bar.(value := current, maximum := total)
  {
  }

  // ---------------------------------------------------------------------------
  // delete_selected_image
  // ---------------------------------------------------------------------------

  /**
   * `delete_selected_image`: with a row selected, save, remove that image and
   * select the one now at its place, or the new last one; an emptied list
   * clears the path and the boxes.
   */
  function Deleted(v: View): View
    requires v.row < |v.images|
  {
    if v.row < 0 then v
    else
      var s := v.row;
      var saved := Saved(v);
      var rest := v.images[..s] + v.images[s + 1..];
      if rest == [] then saved.(images := [], row := -1, path := "", boxes := [])
      else
        var idx := Min(s, |rest| - 1);
        saved.(images := rest, row := idx, path := rest[idx].path)
  }

  /** The image after the deleted one is selected, or the one before when the last was deleted. */
  lemma DeletedSelection(v: View)
    requires WellFormed(v) && 0 <= v.row
    ensures WellFormed(Deleted(v))
    ensures var d := Deleted(v);
            |d.images| == |v.images| - 1 &&
            (d.images != [] ==> d.row == Min(v.row, |d.images| - 1) &&
                                d.images[d.row] == (if v.row < |v.images| - 1 then v.images[v.row + 1] else v.images[v.row - 1])) &&
            (d.images == [] ==> d.row == -1 && d.path == "" && d.boxes == []) &&
            d.history[|d.history| - 1] == Current(v)
  {
    SavedHistory(v);
  }

  /** `clear_images`: save, then empty the list, the path and the boxes. */
  function Cleared(v: View): View {
    Saved(v).(images := [], path := "", boxes := [], row := -1)
  }

  /** Clearing keeps the state well formed, empties the list, and undo brings the list and path back. */
  lemma ClearedUndoable(v: View, files: map<string, Image>, png: Image -> seq<bv8>)
    requires WellFormed(v) && |v.history| < MaxHistory
    ensures WellFormed(Cleared(v)) && Cleared(v).images == [] && Cleared(v).path == ""
    ensures var u := Undone(Cleared(v), files, png);
            u.images == v.images && u.path == v.path && u.history == v.history
  {
    SavedHistory(v);
    var h := Cleared(v).history;
    assert h == v.history + [Current(v)];
    assert h[..|h| - 1] == v.history;
  }

  // ---------------------------------------------------------------------------
  // on_mouse_release_add_box and is_manga_page
  // ---------------------------------------------------------------------------

  /** The rectangle of an added box, from its two corners in image coordinates. */
  function NormalizedRect(x1: int, y1: int, x2: int, y2: int): (r: Rect)
    ensures r.x + r.w == Max(x1, x2) && r.y + r.h == Max(y1, y2)
  {
    Rect(Min(x1, x2), Min(y1, y2), Abs(x2 - x1), Abs(y2 - y1))
  }

  /** The corners can be given in either order. */
  lemma NormalizedRectSymmetric(x1: int, y1: int, x2: int, y2: int)
    ensures NormalizedRect(x1, y1, x2, y2) == NormalizedRect(x2, y2, x1, y1)
    ensures NormalizedRect(x1, y1, x2, y2) == NormalizedRect(x2, y1, x1, y2)
    ensures var r := NormalizedRect(x1, y1, x2, y2); r.x == Min(x1, x2) && r.y == Min(y1, y2)
  {
  }

  predicate MarkedSmall(name: string) {
    HasSubstring(name, "icon") || HasSubstring(name, "preview") || HasSubstring(name, "thumb")
  }

  /** `is_manga_page`: the image loads, is at least 400 pixels each way, and its lower-cased basename is unmarked. */
  function IsMangaPage(img: Option<Image>, path: string): bool {
    img.Some? && img.value.width >= 400 && img.value.height >= 400 && !MarkedSmall(Lower(Basename(path)))
  }

  /** A marked basename is rejected whatever its case, a small image whatever its name. */
  lemma MangaPageRejects(img: Image, dir: string, name: string)
    requires '/' !in name
    ensures MarkedSmall(Lower(name)) ==> !IsMangaPage(Some(img), dir + "/" + name)
    ensures img.width < 400 || img.height < 400 ==> !IsMangaPage(Some(img), dir + "/" + name)
    ensures !IsMangaPage(None, dir + "/" + name)
  {
    var p := dir + "/" + name;
    assert p[|dir|] == '/';
    assert forall k :: |dir| < k < |p| ==> p[k] == name[k - |dir| - 1];
    var i := LastIndexOf(p, '/');
    assert i == Some(|dir|);
    assert p[|dir| + 1..] == name;
  }

  // ---------------------------------------------------------------------------
  // The application object
  // ---------------------------------------------------------------------------

  class MangaOcrApp {
    var images: seq<ImageItem>
    var path: string
    var boxes: seq<TextBox>
    var history: seq<Snapshot>
    var addMode: bool
    var deleteMode: bool
    var token: Token
    var bar: ProgressBar
    var row: int
    var lastPng: Option<seq<bv8>>
    const cache: AppCache.OCRCache<string, CacheValue>

    function Model(): View
      reads this
    {
      View(images, path, boxes, history, addMode, deleteMode, token, bar, row, lastPng)
    }

    ghost predicate Valid()
      reads this, cache
    {
      WellFormed(Model()) && cache.Valid()
    }

    constructor ()
      ensures Valid() && Model() == Initial() && cache.cache == map[] && fresh(cache)
    {
      images, path, boxes, history := [], "", [], [];
      addMode, deleteMode, token := false, false, None;
      bar, row, lastPng := ProgressBar(0, 100, false), -1, None;
      cache := new AppCache.OCRCache();
    }

    method SaveHistory()
      requires Valid()
      modifies this
      ensures Valid() && Model() == Saved(old(Model()))
    {
      history := history + [Snapshot(images, path, boxes)];
      if |history| > MaxHistory {
        history := history[1..];
      }
    }

    /**
     * `undo_action`. When `raised`, the call ends in FileNotFoundError, and
     * the state is what the source leaves at that point: restored and
     * selected, with nothing shown.
     */
    method UndoAction(files: map<string, Image>, onDisk: set<string>, png: Image -> seq<bv8>) returns (raised: bool)
      requires Valid() && files.Keys <= onDisk
      modifies this
      ensures Valid()
      ensures Model() == Undone(old(Model()), files, png)
      ensures raised == UndoRaises(old(Model()), onDisk)
    {
      raised := false;
      if history == [] {
        return;
      }
      ghost var before := Model();
      var snap := PopSnapshot();
      var found: Option<nat> := None;
      if snap.path != "" {
        found := FindPath(snap.images, snap.path);
      }
      UndoneCases(before, files, png, snap, found);
      Restore(snap, found, files, png);
      raised := found.Some? && snap.path !in onDisk;
    }

    /** The last snapshot, taken off the history. */
    method PopSnapshot() returns (snap: Snapshot)
      requires Valid() && history != []
      modifies this
      ensures Valid() && snap == old(history)[|old(history)| - 1]
      ensures Model() == old(Model()).(history := old(history)[..|old(history)| - 1])
    {
      snap := history[|history| - 1];
      history := history[..|history| - 1];
    }

    /** The restored list, path and boxes; the row found for the path is selected and shown. */
    method Restore(snap: Snapshot, found: Option<nat>, files: map<string, Image>, png: Image -> seq<bv8>)
      requires Valid() && (found.Some? ==> found.value < |snap.images|)
      modifies this
      ensures Valid()
      ensures Model() == old(Model()).(images := snap.images, path := snap.path,
                                       boxes := if found.Some? then snap.boxes else [],
                                       row := if found.Some? then found.value else -1,
                                       lastPng := if found.Some? && snap.path in files then Some(png(files[snap.path]))
                                                  else old(lastPng))
    {
      images, path, boxes, row := snap.images, snap.path, snap.boxes, -1;
      if found.Some? {
        row := found.value;
        if path in files {
          lastPng := Some(png(files[path]));
        }
      } else {
        boxes := [];
      }
    }

    method EnableAddBoxMode()
      requires Valid()
      modifies this
      ensures Valid() && Model() == AddToggled(old(Model()))
    {
      if addMode {
        addMode := false;
      } else {
        addMode, deleteMode := true, false;
      }
    }

    method EnableDelBoxMode()
      requires Valid()
      modifies this
      ensures Valid() && Model() == DelToggled(old(Model()))
    {
      if deleteMode {
        deleteMode := false;
      } else {
        deleteMode, addMode := true, false;
      }
    }

    method UpdateOcrProgress(current: int, total: int, t: Token)
      requires Valid()
      modifies this
      ensures Valid() && Model() == ProgressShown(old(Model()), current, total, t)
    {
      if token.Some? && t.Some? && t != token {
        return;
      }
      bar := bar.(maximum := total, value := current);
    }

    /** `on_ocr_finished`: the view changes and, under its key, the cache gets the boxes and the image. */
    method OnOcrFinished(textBoxes: seq<TextBox>, img: Option<Image>, t: Token,
                         png: Image -> seq<bv8>, md5: seq<bv8> -> string)
      requires Valid()
      modifies this, cache
      ensures Valid() && Model() == FinishShown(old(Model()), textBoxes, img, t, png)
      ensures var key := FinishKey(old(Model()), img, t, png, md5);
              cache.cache == if key.Some? then old(cache.cache)[key.value := (textBoxes, img)] else old(cache.cache)
    {
      if token.Some? && t.Some? && t != token {
        return;
      }
      bar := bar.(visible := false);
      boxes := textBoxes;
      if img.Some? {
        lastPng := Some(png(img.value));
      }
      var key: Option<string> := None;
      if path != "" {
        key := Some(path);
      } else if lastPng.Some? {
        key := Some(md5(lastPng.value));
      }
      if key.Some? {
        cache.SetItem(key.value, (textBoxes, img));
      }
    }

    method ClearImages()
      requires Valid()
      modifies this
      ensures Valid() && Model() == Cleared(old(Model()))
    {
      SaveHistory();
      images, path, boxes, row := [], "", [], -1;
    }

    /** `clear_ocr_cache`: the cache is emptied and the view is unchanged. */
    method ClearOcrCache()
      requires Valid()
      modifies cache
      ensures Valid() && cache.cache == map[] && Model() == old(Model())
    {
      cache.Clear();
    }

    method DeleteSelectedImage()
      requires Valid()
      modifies this
      ensures Valid() && Model() == Deleted(old(Model()))
    {
      var selected := row;
      if selected < 0 {
        return;
      }
      ghost var before := Model();
      SaveHistory();
      DropRow(selected);
      DeletedSelection(before);
    }

    /** Take row `s` out of the list and select its neighbour, or nothing when the list is empty. */
    method DropRow(s: nat)
      requires Valid() && s < |images|
      modifies this
      ensures Valid()
      ensures var rest := old(images[..s] + images[s + 1..]);
              Model() == if rest == [] then old(Model()).(images := [], row := -1, path := "", boxes := [])
                         else old(Model()).(images := rest, row := Min(s, |rest| - 1), path := rest[Min(s, |rest| - 1)].path)
    {
      images := images[..s] + images[s + 1..];
      row := -1;
      if images != [] {
        row := Min(s, |images| - 1);
        path := images[row].path;
      } else {
        path, boxes := "", [];
      }
    }
  }
}
