/**
 * The text list beside the page view: it assigns boxes to frames by their
 * centre, orders them in manga reading order (frames in reading order, boxes
 * inside a frame by column then top, unframed boxes right to left), shows
 * their stripped texts, follows the user's drag-and-drop reordering, and
 * writes the ordered boxes back to the window's cache.
 */
module ExportPanel {
  import opened Wrappers
  import opened Text
  import opened Sorting
  import opened Geometry
  import opened ReadingOrder
  import opened Grouping

  // ---------------------------------------------------------------------------
  // set_boxes: the frame of a box without one
  // ---------------------------------------------------------------------------

  predicate HoldsCentre(f: Rect, r: Rect) {
    ContainsPoint(f, CenterX(r), CenterY(r))
  }

  /** The position of the first frame whose rectangle contains the centre of `r`. */
  function FirstContaining(r: Rect, frames: seq<Rect>): (k: Option<nat>)
    ensures k.None? <==> forall m :: 0 <= m < |frames| ==> !HoldsCentre(frames[m], r)
    ensures k.Some? ==> k.value < |frames| && HoldsCentre(frames[k.value], r)
    ensures k.Some? ==> forall m :: 0 <= m < k.value ==> !HoldsCentre(frames[m], r)
  {
    if frames == [] then None
    else
      var init := frames[..|frames| - 1];
      assert forall m :: 0 <= m < |init| ==> init[m] == frames[m];
      var prev := FirstContaining(r, init);
      if prev.Some? then prev
      else if HoldsCentre(frames[|frames| - 1], r) then Some(|frames| - 1)
      else None
  }

  /**
   * A box that already has a frame keeps it; one without a frame gets the first
   * frame holding its centre, if any. Geometry and text never change.
   */
  function AssignFrame(b: TextBox, frames: Option<seq<Rect>>): (r: TextBox)
    ensures r.rect == b.rect && r.text == b.text
    ensures b.frame.Some? || frames.None? ==> r == b
    ensures b.frame.None? && frames.Some? ==>
              (r.frame.None? <==> forall m :: 0 <= m < |frames.value| ==> !HoldsCentre(frames.value[m], b.rect))
    ensures b.frame.None? && frames.Some? && r.frame.Some? ==>
              exists k :: FirstContaining(b.rect, frames.value) == Some(k) && r.frame.value == frames.value[k]
  {
    if b.frame.Some? || frames.None? then b
    else
      match FirstContaining(b.rect, frames.value)
      case None => b
      case Some(k) => b.(frame := Some(frames.value[k]))
  }

  function AssignFrames(boxes: seq<TextBox>, frames: Option<seq<Rect>>): (r: seq<TextBox>)
    ensures |r| == |boxes| && forall k :: 0 <= k < |boxes| ==> r[k] == AssignFrame(boxes[k], frames)
  {
    seq(|boxes|, k requires 0 <= k < |boxes| => AssignFrame(boxes[k], frames))
  }

  /** The `for f in frames` loop with its `break`: the first frame holding the centre. */
  method FindFrame(r: Rect, frames: seq<Rect>) returns (k: Option<nat>)
    ensures k == FirstContaining(r, frames)
  {
    k := None;
    var m := 0;
    while m < |frames| && k.None?
      invariant m <= |frames|
      invariant k.None? ==> k == FirstContaining(r, frames[..m])
      invariant k.Some? ==> k == FirstContaining(r, frames)
      decreases |frames| - m, k.None?
    {
      FirstContainingPrefix(r, frames, m);
      if HoldsCentre(frames[m], r) {
        k := Some(m);
      } else {
        m := m + 1;
      }
    }
    if k.None? {
      assert frames[..m] == frames;
    }
  }

  lemma FirstContainingPrefix(r: Rect, frames: seq<Rect>, m: nat)
    requires m < |frames| && FirstContaining(r, frames[..m]).None?
    ensures HoldsCentre(frames[m], r) ==> FirstContaining(r, frames) == Some(m)
    ensures FirstContaining(r, frames[..m + 1]) == if HoldsCentre(frames[m], r) then Some(m) else None
  {
    assert frames[..m + 1][..m] == frames[..m];
    assert forall q :: 0 <= q < m ==> frames[..m][q] == frames[q];
  }

  /** The frame-assignment loop of `set_boxes`. */
  method AssignFramesLoop(boxes: seq<TextBox>, frames: Option<seq<Rect>>) returns (r: seq<TextBox>)
    ensures r == AssignFrames(boxes, frames)
  {
    r := boxes;
    if frames.Some? {
      var i := 0;
      while i < |r|
        invariant i <= |r| == |boxes|
        invariant forall k :: 0 <= k < i ==> r[k] == AssignFrame(boxes[k], frames)
        invariant forall k :: i <= k < |r| ==> r[k] == boxes[k]
      {
        var b := r[i];
        if b.frame.None? {
          var k := FindFrame(b.rect, frames.value);
          if k.Some? {
            r := r[i := b.(frame := Some(frames.value[k.value]))];
          }
        }
        i := i + 1;
      }
    }
  }

  // ---------------------------------------------------------------------------
  // _sort_boxes
  // ---------------------------------------------------------------------------

  /** The dictionary key of a box: its frame rectangle, if it has one. */
  function FrameOf(): TextBox -> Option<Rect> { (b: TextBox) => b.frame }

  /** `sorted(unframed, key=lambda b: (-b.rect.left(), b.rect.top()))`. */
  function UnframedKey(): TextBox -> Key { (b: TextBox) => Key(-b.rect.x, b.rect.y) }

  /** The group of each frame of `order`, sorted with the column tolerance. */
  function FramedGroups(boxes: seq<TextBox>, order: seq<Rect>): (g: seq<seq<TextBox>>)
    ensures |g| == |order|
    ensures forall k :: 0 <= k < |order| ==> g[k] == FramedGroup(boxes, order[k])
  {
    seq(|order|, k requires 0 <= k < |order| => FramedGroup(boxes, order[k]))
  }

  /** The boxes of frame `f`, sorted by column and then top. */
  function FramedGroup(boxes: seq<TextBox>, f: Rect): seq<TextBox> {
    SortBoxesWithTolerance(Tagged(boxes, FrameOf(), f), XTolerance)
  }

  /** The frames of the boxes (the keys of `frame_dict`) in manga reading order. */
  function FrameOrder(boxes: seq<TextBox>): seq<Rect> {
    MangaOrder(Keys(boxes, FrameOf()), OverlapThreshold)
  }

  /** The result of `_sort_boxes(boxes)`. */
  function SortedBoxes(boxes: seq<TextBox>): seq<TextBox> {
    Flatten(FramedGroups(boxes, FrameOrder(boxes))) + SortBy(Untagged(boxes, FrameOf()), UnframedKey())
  }

  /** What `frame_dict` and its key order hold after the boxes of `done`. */
  ghost predicate DictState(done: seq<TextBox>, keys: seq<Rect>, frameDict: map<Rect, seq<TextBox>>) {
    keys == Keys(done, FrameOf()) &&
    (forall f :: f in frameDict <==> f in keys) &&
    (forall f :: f in frameDict ==> frameDict[f] == Tagged(done, FrameOf(), f))
  }

  /** The first loop of `_sort_boxes`: `frame_dict.setdefault(key, []).append(box)`. */
  method BuildFrameDict(boxes: seq<TextBox>) returns (keys: seq<Rect>, frameDict: map<Rect, seq<TextBox>>)
    ensures DictState(boxes, keys, frameDict)
  {
    frameDict := map[];
    keys := [];
    var i := 0;
    while i < |boxes|
      invariant i <= |boxes|
      invariant DictState(boxes[..i], keys, frameDict)
    {
      var b := boxes[i];
      assert boxes[..i + 1] == boxes[..i] + [b];
      if b.frame.Some? {
        var f := b.frame.value;
        if f !in frameDict {
          DictStepNew(boxes[..i], b, keys, frameDict);
          keys := keys + [f];
          frameDict := frameDict[f := [b]];
        } else {
          DictStepOld(boxes[..i], b, keys, frameDict);
          frameDict := frameDict[f := frameDict[f] + [b]];
        }
      } else {
        DictStepUnframed(boxes[..i], b, keys, frameDict);
      }
      i := i + 1;
    }
    assert boxes[..i] == boxes;
  }

  /** `_sort_boxes`: group by frame, order the frames, sort each group, then the unframed boxes. */
  method SortBoxes(boxes: seq<TextBox>) returns (sorted: seq<TextBox>)
    ensures sorted == SortedBoxes(boxes)
  {
    var keys, frameDict := BuildFrameDict(boxes);
    var sortedKeys := SortFramesMangaStyle(keys, OverlapThreshold);
    MangaOrderPermutation(keys, OverlapThreshold);
    sorted := [];
    var k := 0;
    while k < |sortedKeys|
      invariant k <= |sortedKeys|
      invariant sorted == Flatten(FramedGroups(boxes, sortedKeys[..k]))
    {
      assert sortedKeys[k] in multiset(keys);
      FramedGroupsSnoc(boxes, sortedKeys, k);
      assert SortBoxesWithTolerance(frameDict[sortedKeys[k]], XTolerance) == FramedGroup(boxes, sortedKeys[k]);
      sorted := sorted + SortBoxesWithTolerance(frameDict[sortedKeys[k]], XTolerance);
      k := k + 1;
    }
    assert sortedKeys[..k] == sortedKeys;
    sorted := sorted + SortBy(Untagged(boxes, FrameOf()), UnframedKey());
  }

  lemma DictStepUnframed(done: seq<TextBox>, b: TextBox, keys: seq<Rect>, frameDict: map<Rect, seq<TextBox>>)
    requires DictState(done, keys, frameDict) && b.frame.None?
    ensures DictState(done + [b], keys, frameDict)
  {
    assert (done + [b])[..|done|] == done;
  }

  lemma DictStepNew(done: seq<TextBox>, b: TextBox, keys: seq<Rect>, frameDict: map<Rect, seq<TextBox>>)
    requires DictState(done, keys, frameDict) && b.frame.Some? && b.frame.value !in frameDict
    ensures DictState(done + [b], keys + [b.frame.value], frameDict[b.frame.value := [b]])
  {
    var after := done + [b];
    var f0 := b.frame.value;
    assert after[..|done|] == done;
    assert Keys(after, FrameOf()) == keys + [f0];
    TaggedAbsent(done, FrameOf(), f0);
    assert Tagged(after, FrameOf(), f0) == [b];
    forall f | f in frameDict[f0 := [b]] ensures frameDict[f0 := [b]][f] == Tagged(after, FrameOf(), f) {
      if f != f0 {
        assert Tagged(after, FrameOf(), f) == Tagged(done, FrameOf(), f);
      }
    }
  }

  lemma DictStepOld(done: seq<TextBox>, b: TextBox, keys: seq<Rect>, frameDict: map<Rect, seq<TextBox>>)
    requires DictState(done, keys, frameDict) && b.frame.Some? && b.frame.value in frameDict
    ensures DictState(done + [b], keys, frameDict[b.frame.value := frameDict[b.frame.value] + [b]])
  {
    assert (done + [b])[..|done|] == done;
  }

  lemma FramedGroupsSnoc(boxes: seq<TextBox>, order: seq<Rect>, k: nat)
    requires k < |order|
    ensures Flatten(FramedGroups(boxes, order[..k + 1])) ==
            Flatten(FramedGroups(boxes, order[..k])) + FramedGroup(boxes, order[k])
  {
    var before := FramedGroups(boxes, order[..k]);
    var after := FramedGroups(boxes, order[..k + 1]);
    var last := FramedGroup(boxes, order[k]);
    forall m | 0 <= m < |after| ensures after[m] == (before + [last])[m] {
      assert order[..k + 1][m] == order[m];
      if m < k {
        assert order[..k][m] == order[m];
      }
    }
    assert after == before + [last];
    FlattenSnoc(before, last);
  }

  // ---------------------------------------------------------------------------
  // _sort_boxes: what the result holds
  // ---------------------------------------------------------------------------

  /** Each sorted group holds the boxes of its frame. */
  lemma FramedGroupsPointwise(boxes: seq<TextBox>, order: seq<Rect>)
    ensures var g := GroupsOf(boxes, FrameOf(), order);
            |FramedGroups(boxes, order)| == |g| &&
            forall k :: 0 <= k < |g| ==> multiset(FramedGroups(boxes, order)[k]) == multiset(g[k])
  {
    var g := GroupsOf(boxes, FrameOf(), order);
    forall k | 0 <= k < |g| ensures multiset(FramedGroups(boxes, order)[k]) == multiset(g[k]) {
      assert FramedGroups(boxes, order)[k] == FramedGroup(boxes, order[k]);
    }
  }

  /** The framed part of the output holds exactly the framed boxes. */
  lemma FramedPartPermutation(boxes: seq<TextBox>)
    ensures multiset(Flatten(FramedGroups(boxes, FrameOrder(boxes)))) == multiset(AnyTagged(boxes, FrameOf()))
  {
    var order := FrameOrder(boxes);
    MangaOrderPermutation(Keys(boxes, FrameOf()), OverlapThreshold);
    FramedGroupsPointwise(boxes, order);
    FlattenPointwiseMultiset(FramedGroups(boxes, order), GroupsOf(boxes, FrameOf(), order));
    GroupsInOrder(boxes, FrameOf(), order);
  }

  /** `_sort_boxes` returns every box exactly once. */
  lemma SortedBoxesPermutation(boxes: seq<TextBox>)
    ensures multiset(SortedBoxes(boxes)) == multiset(boxes)
  {
    FramedPartPermutation(boxes);
    TaggedUntaggedSplit(boxes, FrameOf());
  }

  /**
   * Inside the output, the part for frame `order[k]` holds exactly that
   * frame's boxes, sorted by column and then top.
   */
  lemma FramedGroupShape(boxes: seq<TextBox>, order: seq<Rect>, k: nat)
    requires k < |order|
    ensures var g := FramedGroups(boxes, order)[k];
            SortedBy(g, ToleranceKey(XTolerance)) && multiset(g) == multiset(Tagged(boxes, FrameOf(), order[k])) &&
            forall m :: 0 <= m < |g| ==> g[m].frame == Some(order[k])
  {
    var grp := Tagged(boxes, FrameOf(), order[k]);
    var g := SortBoxesWithTolerance(grp, XTolerance);
    assert FramedGroups(boxes, order)[k] == g;
    forall m | 0 <= m < |g| ensures g[m].frame == Some(order[k]) {
      assert g[m] in multiset(grp);
    }
  }

  /**
   * The output starts with the framed boxes, then holds the unframed ones,
   * sorted right to left and then top to bottom.
   */
  lemma SortedBoxesLayout(boxes: seq<TextBox>)
    ensures |SortedBoxes(boxes)| == |boxes| && |AnyTagged(boxes, FrameOf())| <= |boxes|
    ensures forall k :: 0 <= k < |AnyTagged(boxes, FrameOf())| ==> SortedBoxes(boxes)[k].frame.Some?
    ensures forall k :: |AnyTagged(boxes, FrameOf())| <= k < |SortedBoxes(boxes)| ==> SortedBoxes(boxes)[k].frame.None?
    ensures SortedBy(SortedBoxes(boxes)[|AnyTagged(boxes, FrameOf())|..], UnframedKey())
  {
    var framed := Flatten(FramedGroups(boxes, FrameOrder(boxes)));
    var rest := SortBy(Untagged(boxes, FrameOf()), UnframedKey());
    FramedPartPermutation(boxes);
    SortedBoxesPermutation(boxes);
    assert |framed| == |AnyTagged(boxes, FrameOf())| by {
      assert |framed| == |multiset(framed)|;
    }
    PrefixFramed(framed, AnyTagged(boxes, FrameOf()));
    SuffixUnframed(framed, rest, Untagged(boxes, FrameOf()));
    assert (framed + rest)[|framed|..] == rest;
    SortBySorted(Untagged(boxes, FrameOf()), UnframedKey());
  }

  lemma PrefixFramed(framed: seq<TextBox>, all: seq<TextBox>)
    requires multiset(framed) == multiset(all) && forall k :: 0 <= k < |all| ==> all[k].frame.Some?
    ensures forall k :: 0 <= k < |framed| ==> framed[k].frame.Some?
  {
    forall k | 0 <= k < |framed| ensures framed[k].frame.Some? {
      assert framed[k] in multiset(all);
    }
  }

  lemma SuffixUnframed(framed: seq<TextBox>, rest: seq<TextBox>, all: seq<TextBox>)
    requires multiset(rest) == multiset(all) && forall k :: 0 <= k < |all| ==> all[k].frame.None?
    ensures forall k :: |framed| <= k < |framed + rest| ==> (framed + rest)[k].frame.None?
  {
    forall k | |framed| <= k < |framed + rest| ensures (framed + rest)[k].frame.None? {
      assert (framed + rest)[k] == rest[k - |framed|];
      assert rest[k - |framed|] in multiset(all);
    }
  }

  // ---------------------------------------------------------------------------
  // dropEvent
  // ---------------------------------------------------------------------------

  /** The stripped text of every box, as the list items show them. */
  function StripTexts(boxes: seq<TextBox>): (r: seq<string>)
    ensures |r| == |boxes| && forall k :: 0 <= k < |boxes| ==> r[k] == Strip(boxes[k].text)
  {
    seq(|boxes|, k requires 0 <= k < |boxes| => Strip(boxes[k].text))
  }

  /** The position of the last occurrence of `t` in `texts`. */
  function LastIndex(texts: seq<string>, t: string): (r: Option<nat>)
    ensures r.Some? ==> r.value < |texts| && texts[r.value] == t
    ensures r.Some? ==> forall k :: r.value < k < |texts| ==> texts[k] != t
    ensures r.None? ==> forall k :: 0 <= k < |texts| ==> texts[k] != t
  {
    if texts == [] then None
    else if texts[|texts| - 1] == t then Some(|texts| - 1)
    else
      var init := texts[..|texts| - 1];
      assert forall k :: 0 <= k < |init| ==> init[k] == texts[k];
      LastIndex(init, t)
  }

  /** `{box.text.strip(): box for box in boxes}`: a later box overwrites an earlier one. */
  function TextToBox(boxes: seq<TextBox>): map<string, TextBox> {
    if boxes == [] then map[]
    else
      var b := boxes[|boxes| - 1];
      TextToBox(boxes[..|boxes| - 1])[Strip(b.text) := b]
  }

  /**
   * A text maps to a box exactly when some box has it as its stripped text;
   * then it maps to the last such box.
   */
  lemma {:induction false} TextToBoxLastWins(boxes: seq<TextBox>, t: string)
    ensures t in TextToBox(boxes) <==> LastIndex(StripTexts(boxes), t).Some?
    ensures t in TextToBox(boxes) ==> TextToBox(boxes)[t] == boxes[LastIndex(StripTexts(boxes), t).value]
  {
    if boxes != [] {
      var init := boxes[..|boxes| - 1];
      TextToBoxLastWins(init, t);
      assert StripTexts(boxes)[..|boxes| - 1] == StripTexts(init);
    }
  }

  /** `[text for text in texts if text in m]`. */
  function Present(texts: seq<string>, m: map<string, TextBox>): (r: seq<string>)
    ensures |r| <= |texts| && forall k :: 0 <= k < |r| ==> r[k] in m
  {
    if texts == [] then []
    else (if texts[0] in m then [texts[0]] else []) + Present(texts[1..], m)
  }

  /** `[m[text] for text in texts if text in m]`. */
  function Reordered(texts: seq<string>, m: map<string, TextBox>): (r: seq<TextBox>)
    ensures |r| == |Present(texts, m)| && forall k :: 0 <= k < |r| ==> r[k] == m[Present(texts, m)[k]]
  {
    if texts == [] then []
    else (if texts[0] in m then [m[texts[0]]] else []) + Reordered(texts[1..], m)
  }

  /** After a drop the boxes follow the item order, dropping items whose text no box has. */
  lemma DropFollowsItems(boxes: seq<TextBox>, texts: seq<string>)
    ensures StripTexts(Reordered(texts, TextToBox(boxes))) == Present(texts, TextToBox(boxes))
  {
    var m := TextToBox(boxes);
    var p := Present(texts, m);
    forall k | 0 <= k < |p| ensures Strip(m[p[k]].text) == p[k] {
      TextToBoxLastWins(boxes, p[k]);
    }
  }

  /** Items that are a rearrangement of the boxes' texts are all kept, in their new order. */
  lemma {:induction false} DropKeepsRearrangedItems(boxes: seq<TextBox>, texts: seq<string>)
    requires multiset(texts) == multiset(StripTexts(boxes))
    ensures StripTexts(Reordered(texts, TextToBox(boxes))) == texts
  {
    ItemsHaveBoxes(boxes, texts);
    PresentAll(texts, TextToBox(boxes));
    DropFollowsItems(boxes, texts);
  }

  /** Every text that is some box's stripped text is a key of the text-to-box map. */
  lemma ItemsHaveBoxes(boxes: seq<TextBox>, texts: seq<string>)
    requires multiset(texts) == multiset(StripTexts(boxes))
    ensures forall k :: 0 <= k < |texts| ==> texts[k] in TextToBox(boxes)
  {
    forall k | 0 <= k < |texts| ensures texts[k] in TextToBox(boxes) {
      assert texts[k] in multiset(StripTexts(boxes));
      var q :| 0 <= q < |boxes| && StripTexts(boxes)[q] == texts[k];
      TextToBoxLastWins(boxes, texts[k]);
    }
  }

  lemma {:induction false} PresentAll(texts: seq<string>, m: map<string, TextBox>)
    requires forall k :: 0 <= k < |texts| ==> texts[k] in m
    ensures Present(texts, m) == texts
  {
    if texts != [] {
      PresentAll(texts[1..], m);
    }
  }

  /** The `addItem` loop: one item per box, showing its stripped text. */
  method ItemTexts(boxes: seq<TextBox>) returns (texts: seq<string>)
    ensures texts == StripTexts(boxes)
  {
    texts := [];
    var k := 0;
    while k < |boxes|
      invariant k <= |boxes|
      invariant texts == StripTexts(boxes[..k])
    {
      assert StripTexts(boxes[..k + 1]) == StripTexts(boxes[..k]) + [Strip(boxes[k].text)];
      texts := texts + [Strip(boxes[k].text)];
      k := k + 1;
    }
    assert boxes[..k] == boxes;
  }

  // ---------------------------------------------------------------------------
  // The panel
  // ---------------------------------------------------------------------------

  /**
   * One `wnd.ocr_cache.set_for_path(current_path, _boxes, frames)` call made by
   * `_update_cache`. The window's cache is not part of this model, so the
   * panel records the calls it makes; an exception the call raises is printed
   * and changes nothing here.
   */
  datatype CacheWrite = CacheWrite(path: string, boxes: seq<TextBox>, frames: Option<seq<Rect>>)

  /**
   * `_update_cache`: no call without a path or when the window has no
   * `ocr_cache`, one call with the current boxes and frames otherwise.
   */
  function UpdateCacheCalls(path: Option<string>, windowHasCache: bool, boxes: seq<TextBox>,
                            frames: Option<seq<Rect>>): (r: seq<CacheWrite>)
    ensures |r| <= 1
    ensures r != [] <==> path.Some? && windowHasCache
    ensures r != [] ==> r[0].path == path.value && r[0].boxes == boxes && r[0].frames == frames
  {
    if path.Some? && windowHasCache then [CacheWrite(path.value, boxes, frames)] else []
  }

  class TextExportPanel {
    /** `_boxes`: the boxes in display order. */
    var boxes: seq<TextBox>
    /** `_frames`. */
    var frames: Option<seq<Rect>>
    var currentPath: Option<string>
    /** The texts of the list items, top to bottom. */
    var items: seq<string>
    /** The `set_for_path` calls `_update_cache` has made on the window's cache, oldest first. */
    var cacheWrites: seq<CacheWrite>

    constructor()
      ensures boxes == [] && frames == None && currentPath == None && items == [] && cacheWrites == []
    {
      boxes := [];
      frames := None;
      currentPath := None;
      items := [];
      cacheWrites := [];
    }

    /** `_update_cache`, for a window that has an `ocr_cache` exactly when `windowHasCache`. */
    method UpdateCache(windowHasCache: bool)
      modifies this
      ensures cacheWrites == old(cacheWrites) + UpdateCacheCalls(currentPath, windowHasCache, boxes, frames)
      ensures boxes == old(boxes) && frames == old(frames) && currentPath == old(currentPath) && items == old(items)
    {
      if currentPath.None? || !windowHasCache {
        return;
      }
      cacheWrites := cacheWrites + [CacheWrite(currentPath.value, boxes, frames)];
    }

    /**
     * `set_boxes(boxes, frames, path)`: give unframed boxes the frame holding
     * their centre, sort, list the stripped texts, and write the sorted boxes
     * to the window's cache under the path.
     */
    method SetBoxes(newBoxes: seq<TextBox>, newFrames: Option<seq<Rect>>, path: Option<string>, windowHasCache: bool)
      modifies this
      ensures frames == newFrames && currentPath == path
      ensures boxes == SortedBoxes(AssignFrames(newBoxes, newFrames))
      ensures items == StripTexts(boxes)
      ensures cacheWrites == old(cacheWrites) + UpdateCacheCalls(path, windowHasCache, boxes, newFrames)
    {
      var withFrames := AssignFramesLoop(newBoxes, newFrames);
      var sorted := SortBoxes(withFrames);
      var texts := ItemTexts(sorted);
      boxes, frames, currentPath, items := sorted, newFrames, path, texts;
      UpdateCache(windowHasCache);
    }

    /**
     * `dropEvent`: the list widget has moved items to `newItems`; the boxes are
     * rebuilt in that order from a map from stripped text to box, and written
     * to the window's cache under the current path.
     */
    method DropEvent(newItems: seq<string>, windowHasCache: bool)
      modifies this
      ensures items == newItems
      ensures boxes == Reordered(newItems, TextToBox(old(boxes)))
      ensures frames == old(frames) && currentPath == old(currentPath)
      ensures cacheWrites == old(cacheWrites) + UpdateCacheCalls(currentPath, windowHasCache, boxes, frames)
    {
      items := newItems;
      boxes := Reordered(newItems, TextToBox(boxes));
      UpdateCache(windowHasCache);
    }
  }
}
