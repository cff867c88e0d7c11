/**
 * Manga reading order of frames and of the text boxes inside them
 * (app/ui/textexportpanel.py:105-139, repeated in app/ui/widgets.py:309-389
 * and run.py:459-549):
 *
 *  - `sort_frames_manga_style`: frames are bucketed into rows (a frame joins
 *    the first row holding a frame it overlaps vertically, up to a 5 px gap),
 *    rows go top to bottom, and inside a row frames go right to left;
 *  - `sort_boxes_with_tolerance`: boxes of one frame are ordered by
 *    `(round(-left / 20), top)`, Python's `round` halving to even;
 *  - `get_box_main_frame`: the frame a box overlaps most, the first one on ties.
 *
 * A frame is its key `(left, top, width, height)`, here a `Rect`.
 */
module ReadingOrder {
  import opened Wrappers
  import opened Sorting
  import opened Geometry

  // ---------------------------------------------------------------------------
  // sort_boxes_with_tolerance
  // ---------------------------------------------------------------------------

  /**
   * Python's `round(n / d)`: the nearest integer, ties to the even one. The
   * quotients here are multiples of 1/20, so the float division is exact at
   * every tie and the model computes on integers.
   */
  function RoundHalfEven(n: int, d: int): (r: int)
    requires d > 0
    ensures 2 * Abs(n - d * r) <= d
    ensures 2 * Abs(n - d * r) == d ==> r % 2 == 0
  {
    var q, m := n / d, n % d;
    assert n - d * q == m;
    assert n - d * (q + 1) == m - d;
    if 2 * m < d then q
    else if 2 * m > d then q + 1
    else if q % 2 == 0 then q else q + 1
  }

  /** No other integer is as close to `n / d`, except the odd twin at a tie. */
  lemma RoundHalfEvenIsNearest(n: int, d: int, k: int)
    requires d > 0
    ensures 2 * Abs(n - d * k) < d ==> k == RoundHalfEven(n, d)
    ensures 2 * Abs(n - d * k) == d && k % 2 == 0 ==> k == RoundHalfEven(n, d)
  {
    var r := RoundHalfEven(n, d);
    var t := k - r;
    ProductSplit(d, r, t);
    ProductBounds(d, t);
    Nearest(n - d * r, n - d * k, d, d * t, t, r, k);
  }

  /** Two errors `e1` (the rounding's) and `e2` that differ by `p = d * t`, with `t` the difference of the candidates. */
  lemma Nearest(e1: int, e2: int, d: int, p: int, t: int, r: int, k: int)
    requires d > 0 && e1 - e2 == p && t == k - r
    requires 2 * Abs(e1) <= d && (2 * Abs(e1) == d ==> r % 2 == 0)
    requires (t >= 2 ==> p >= 2 * d) && (t == 1 ==> p == d) && (t == 0 ==> p == 0)
    requires (t == -1 ==> p == -d) && (t <= -2 ==> p <= -2 * d)
    ensures 2 * Abs(e2) < d ==> k == r
    ensures 2 * Abs(e2) == d && k % 2 == 0 ==> k == r
  {
  }

  /** `d * t` against multiples of `d`. */
  lemma ProductBounds(d: int, t: int)
    requires d > 0
    ensures t >= 2 ==> d * t >= 2 * d
    ensures t == 1 ==> d * t == d
    ensures t == 0 ==> d * t == 0
    ensures t == -1 ==> d * t == -d
    ensures t <= -2 ==> d * t <= -2 * d
  {
    if t >= 2 {
      ProductAtLeast(d, t - 1);
      ProductSplit(d, t - 1, 1);
    } else if t <= -2 {
      ProductAtLeast(d, -t - 1);
      ProductSplit(d, -t - 1, 1);
      assert d * (-t) == -(d * t);
    }
  }

  lemma ProductSplit(d: int, r: int, t: int)
    ensures d * (r + t) == d * r + d * t
  {
  }

  lemma ProductAtLeast(d: int, t: int)
    requires d > 0 && t >= 1
    ensures d * t >= d
  {
  }

  /** The key of `sort_boxes_with_tolerance`: `(round(-left / xTolerance), top)`. */
  function ToleranceKey(xTolerance: int): TextBox -> Key
    requires xTolerance > 0
  {
    (b: TextBox) => Key(RoundHalfEven(-b.rect.x, xTolerance), b.rect.y)
  }

  const XTolerance := 20

  /** `sort_boxes_with_tolerance(boxes, x_tolerance)`: a stable sort by the tolerance key. */
  function SortBoxesWithTolerance(boxes: seq<TextBox>, xTolerance: int): (r: seq<TextBox>)
    requires xTolerance > 0
    ensures multiset(r) == multiset(boxes)
    ensures SortedBy(r, ToleranceKey(xTolerance))
  {
    SortBySorted(boxes, ToleranceKey(xTolerance));
    SortBy(boxes, ToleranceKey(xTolerance))
  }

  function BoxAt(left: int, top: int): TextBox {
    TextBox(Rect(left, top, 10, 10), "", None)
  }

  /** Left edges 500 and 505 share a column (-25 and -25.25 both round to -25); 300 comes after. */
  lemma SortBoxesWithToleranceExample()
    ensures SortBoxesWithTolerance([BoxAt(500, 10), BoxAt(505, 50), BoxAt(300, 5)], XTolerance)
            == [BoxAt(500, 10), BoxAt(505, 50), BoxAt(300, 5)]
  {
    var a, b, c := BoxAt(500, 10), BoxAt(505, 50), BoxAt(300, 5);
    var key := ToleranceKey(XTolerance);
    assert RoundHalfEven(-500, 20) == -25;
    assert RoundHalfEven(-505, 20) == -25;
    assert RoundHalfEven(-300, 20) == -15;
    assert key(a) == Key(-25, 10) && key(b) == Key(-25, 50) && key(c) == Key(-15, 5);
    SortBySortedIsIdentity([a, b, c], key);
  }

  // ---------------------------------------------------------------------------
  // sort_frames_manga_style: rows
  // ---------------------------------------------------------------------------

  const OverlapThreshold := 5

  /** The vertical overlap of two frames, negative for a gap. */
  function VerticalOverlap(f: Rect, r: Rect): int {
    Min(f.y + f.h, r.y + r.h) - Max(f.y, r.y)
  }

  /** `is_same_row(f, row)`: some member of the row is at most `threshold` px away vertically. */
  predicate IsSameRow(f: Rect, row: seq<Rect>, threshold: int) {
    exists k :: 0 <= k < |row| && VerticalOverlap(f, row[k]) >= -threshold
  }

  /** Tops 0 and 4 with height 100 share a row; tops 0 and 120 do not. */
  lemma IsSameRowExamples()
    ensures IsSameRow(Rect(0, 4, 100, 100), [Rect(0, 0, 100, 100)], OverlapThreshold)
    ensures !IsSameRow(Rect(0, 120, 100, 100), [Rect(0, 0, 100, 100)], OverlapThreshold)
  {
    assert [Rect(0, 0, 100, 100)][0] == Rect(0, 0, 100, 100);
    assert VerticalOverlap(Rect(0, 4, 100, 100), Rect(0, 0, 100, 100)) == 96;
    assert VerticalOverlap(Rect(0, 120, 100, 100), Rect(0, 0, 100, 100)) == -20;
  }

  /** The first row from `lo` on that frame `f` may join. */
  function FirstRow(rows: seq<seq<Rect>>, f: Rect, threshold: int, lo: nat): (r: Option<nat>)
    requires lo <= |rows|
    ensures r.Some? ==> lo <= r.value < |rows| && IsSameRow(f, rows[r.value], threshold)
    ensures r.Some? ==> forall k :: lo <= k < r.value ==> !IsSameRow(f, rows[k], threshold)
    ensures r.None? <==> forall k :: lo <= k < |rows| ==> !IsSameRow(f, rows[k], threshold)
    decreases |rows| - lo
  {
    if lo == |rows| then None
    else if IsSameRow(f, rows[lo], threshold) then Some(lo)
    else FirstRow(rows, f, threshold, lo + 1)
  }

  /** The first matching row is the only row with no matching row before it. */
  lemma {:induction false} FirstRowUnique(rows: seq<seq<Rect>>, f: Rect, threshold: int, lo: nat, j: nat)
    requires lo <= j < |rows| && IsSameRow(f, rows[j], threshold)
    requires forall k :: lo <= k < j ==> !IsSameRow(f, rows[k], threshold)
    ensures FirstRow(rows, f, threshold, lo) == Some(j)
    decreases j - lo
  {
    if lo < j {
      FirstRowUnique(rows, f, threshold, lo + 1, j);
    }
  }

  /** Appending to one part adds exactly that element to the concatenation. */
  lemma {:induction false} FlattenUpdateAppend<T>(rows: seq<seq<T>>, j: nat, x: T)
    requires j < |rows|
    ensures multiset(Flatten(rows[j := rows[j] + [x]])) == multiset(Flatten(rows)) + multiset{x}
  {
    var u := rows[j := rows[j] + [x]];
    if j == 0 {
      assert u[1..] == rows[1..];
    } else {
      FlattenUpdateAppend(rows[1..], j - 1, x);
      assert u[1..] == rows[1..][j - 1 := rows[1..][j - 1] + [x]];
    }
  }

  /**
   * One step of the bucketing loop: `f` joins the first row it may join, or
   * starts a new row at the end when it may join none.
   */
  function Place(rows: seq<seq<Rect>>, f: Rect, threshold: int): (r: seq<seq<Rect>>)
    ensures multiset(Flatten(r)) == multiset(Flatten(rows)) + multiset{f}
  {
    match FirstRow(rows, f, threshold, 0)
    case None =>
      FlattenSnoc(rows, [f]);
      rows + [[f]]
    case Some(j) =>
      FlattenUpdateAppend(rows, j, f);
      rows[j := rows[j] + [f]]
  }

  /**
   * A frame joins an existing row exactly when it may join one of them, and
   * then it joins the first such row; otherwise it starts a new row.
   */
  lemma PlaceJoinsFirstRow(rows: seq<seq<Rect>>, f: Rect, threshold: int)
    ensures (exists k :: 0 <= k < |rows| && IsSameRow(f, rows[k], threshold)) <==> |Place(rows, f, threshold)| == |rows|
    ensures (forall k :: 0 <= k < |rows| ==> !IsSameRow(f, rows[k], threshold)) ==> Place(rows, f, threshold) == rows + [[f]]
    ensures forall k :: 0 <= k < |rows| ==>
              Place(rows, f, threshold)[k] == rows[k] ||
              (Place(rows, f, threshold)[k] == rows[k] + [f] && IsSameRow(f, rows[k], threshold) &&
               forall m :: 0 <= m < k ==> !IsSameRow(f, rows[m], threshold))
  {
  }

  lemma PlaceFound(rows: seq<seq<Rect>>, f: Rect, threshold: int, j: nat)
    requires j < |rows| && IsSameRow(f, rows[j], threshold)
    requires forall k :: 0 <= k < j ==> !IsSameRow(f, rows[k], threshold)
    ensures Place(rows, f, threshold) == rows[j := rows[j] + [f]]
  {
    FirstRowUnique(rows, f, threshold, 0, j);
  }

  /** The rows after bucketing `frames` in order. */
  function PlaceAll(frames: seq<Rect>, threshold: int): (rows: seq<seq<Rect>>)
    ensures multiset(Flatten(rows)) == multiset(frames)
  {
    if frames == [] then []
    else
      var init := frames[..|frames| - 1];
      assert frames == init + [frames[|frames| - 1]];
      Place(PlaceAll(init, threshold), frames[|frames| - 1], threshold)
  }

  lemma PlaceAllSnoc(frames: seq<Rect>, i: nat, threshold: int)
    requires i < |frames|
    ensures PlaceAll(frames[..i + 1], threshold) == Place(PlaceAll(frames[..i], threshold), frames[i], threshold)
  {
    assert frames[..i + 1][..i] == frames[..i];
  }

  /** No row is ever empty. */
  lemma {:induction false} PlaceAllNonEmpty(frames: seq<Rect>, threshold: int)
    ensures forall k :: 0 <= k < |PlaceAll(frames, threshold)| ==> PlaceAll(frames, threshold)[k] != []
  {
    if frames != [] {
      var init := frames[..|frames| - 1];
      PlaceAllNonEmpty(init, threshold);
      PlaceJoinsFirstRow(PlaceAll(init, threshold), frames[|frames| - 1], threshold);
    }
  }

  // ---------------------------------------------------------------------------
  // sort_frames_manga_style: order of rows and inside rows
  // ---------------------------------------------------------------------------

  function TopKey(): Rect -> Key { (f: Rect) => Key(f.y, 0) }

  /** The key of `sorted(row, key=lambda f: -f[0])`: right to left. */
  function NegLeftKey(): Rect -> Key { (f: Rect) => Key(-f.x, 0) }

  /** `min(f[1] for f in row)`, the top of a row (0 for the empty row, which never occurs). */
  function RowTop(row: seq<Rect>): (t: int)
    ensures forall k :: 0 <= k < |row| ==> t <= row[k].y
    ensures row != [] ==> exists k :: 0 <= k < |row| && t == row[k].y
  {
    if row == [] then 0
    else if |row| == 1 then row[0].y
    else
      var t := RowTop(row[1..]);
      assert forall k :: 1 <= k < |row| ==> row[k] == row[1..][k - 1];
      Min(row[0].y, t)
  }

  function RowTopKey(): seq<Rect> -> Key { (row: seq<Rect>) => Key(RowTop(row), 0) }

  /** The rows in output order: bucketed after sorting by top, then sorted by their tops. */
  function MangaRows(frames: seq<Rect>, threshold: int): seq<seq<Rect>> {
    SortBy(PlaceAll(SortBy(frames, TopKey()), threshold), RowTopKey())
  }

  /** Every row sorted right to left. */
  function RightToLeft(rows: seq<seq<Rect>>): (r: seq<seq<Rect>>)
    ensures |r| == |rows|
    ensures forall k :: 0 <= k < |rows| ==> r[k] == SortBy(rows[k], NegLeftKey())
  {
    seq(|rows|, k requires 0 <= k < |rows| => SortBy(rows[k], NegLeftKey()))
  }

  /** The result of `sort_frames_manga_style(frames, threshold)`. */
  function MangaOrder(frames: seq<Rect>, threshold: int): seq<Rect> {
    Flatten(RightToLeft(MangaRows(frames, threshold)))
  }

  /** Inside a row, left edges do not increase. */
  predicate RightToLeftRow(row: seq<Rect>) {
    forall i, j :: 0 <= i < j < |row| ==> row[i].x >= row[j].x
  }

  /** Rows go top to bottom by their topmost frame. */
  predicate RowsTopToBottom(rows: seq<seq<Rect>>) {
    forall i, j :: 0 <= i < j < |rows| ==> RowTop(rows[i]) <= RowTop(rows[j])
  }

  /** The reading order is a permutation of the frames. */
  lemma MangaOrderPermutation(frames: seq<Rect>, threshold: int)
    ensures multiset(MangaOrder(frames, threshold)) == multiset(frames)
  {
    var placed := PlaceAll(SortBy(frames, TopKey()), threshold);
    var rows := MangaRows(frames, threshold);
    FlattenSortByMultiset(placed, RowTopKey());
    FlattenPointwiseMultiset(RightToLeft(rows), rows);
  }

  /** Rows are non-empty and go top to bottom by their topmost frame. */
  lemma MangaRowsTopToBottom(frames: seq<Rect>, threshold: int)
    ensures RowsTopToBottom(MangaRows(frames, threshold))
    ensures forall k :: 0 <= k < |MangaRows(frames, threshold)| ==> MangaRows(frames, threshold)[k] != []
  {
    var placed := PlaceAll(SortBy(frames, TopKey()), threshold);
    var rows := MangaRows(frames, threshold);
    SortBySorted(placed, RowTopKey());
    forall i, j | 0 <= i < j < |rows| ensures RowTop(rows[i]) <= RowTop(rows[j]) {
      assert KeyLe(RowTopKey()(rows[i]), RowTopKey()(rows[j]));
    }
    PlaceAllNonEmpty(SortBy(frames, TopKey()), threshold);
    forall k | 0 <= k < |rows| ensures rows[k] != [] {
      assert rows[k] in multiset(placed);
    }
  }

  /** Sorting by the negated left edge puts a row right to left. */
  lemma RightToLeftSorted(row: seq<Rect>)
    ensures RightToLeftRow(SortBy(row, NegLeftKey()))
  {
    var s := SortBy(row, NegLeftKey());
    SortBySorted(row, NegLeftKey());
    forall i, j | 0 <= i < j < |s| ensures s[i].x >= s[j].x {
      assert KeyLe(NegLeftKey()(s[i]), NegLeftKey()(s[j]));
    }
  }

  /** Each emitted row goes right to left. */
  lemma MangaRowsRightToLeft(frames: seq<Rect>, threshold: int)
    ensures forall k :: 0 <= k < |MangaRows(frames, threshold)| ==>
              RightToLeftRow(RightToLeft(MangaRows(frames, threshold))[k])
  {
    var rows := MangaRows(frames, threshold);
    forall k | 0 <= k < |rows| ensures RightToLeftRow(RightToLeft(rows)[k]) {
      RightToLeftSorted(rows[k]);
    }
  }

  lemma TwoFramesSortedByTop(a: Rect, b: Rect)
    requires a.y == b.y
    ensures SortBy([a, b], TopKey()) == [a, b]
  {
    assert [a, b][1..] == [b];
    assert SortBy([b], TopKey()) == [b] by {
      assert [b][1..] == [];
    }
  }

  lemma OneFrameOneRow(a: Rect, threshold: int)
    ensures PlaceAll([a], threshold) == [[a]]
  {
    PlaceAllSnoc([a], 0, threshold);
    assert [a][..0] == [] && [a][..1] == [a];
    assert FirstRow([], a, threshold, 0) == None;
  }

  lemma TwoFramesOneRow(s: seq<Rect>, threshold: int)
    requires |s| == 2 && IsSameRow(s[1], [s[0]], threshold)
    ensures PlaceAll(s, threshold) == [[s[0], s[1]]]
  {
    assert s[..1] == [s[0]];
    OneFrameOneRow(s[0], threshold);
    JoinOnlyRow(s[0], s[1], threshold);
  }

  lemma JoinOnlyRow(a: Rect, b: Rect, threshold: int)
    requires IsSameRow(b, [a], threshold)
    ensures Place([[a]], b, threshold) == [[a, b]]
  {
    assert [[a]][0] == [a];
    PlaceFound([[a]], b, threshold, 0);
    var u := [[a]][0 := [a] + [b]];
    assert |u| == 1 && u[0] == [a, b];
    assert u == [[a, b]];
  }

  lemma OneRowSorted(row: seq<Rect>)
    ensures SortBy([row], RowTopKey()) == [row]
  {
    assert [row][1..] == [];
  }

  lemma TwoFramesRightToLeft(a: Rect, b: Rect)
    requires a.x < b.x
    ensures SortBy([a, b], NegLeftKey()) == [b, a]
  {
    assert [a, b][1..] == [b];
    assert SortBy([b], NegLeftKey()) == [b] by {
      assert [b][1..] == [];
    }
    assert !KeyLe(NegLeftKey()(a), NegLeftKey()(b));
    assert Insert(a, [b], NegLeftKey()) == [b] + Insert(a, [], NegLeftKey());
  }

  lemma TwoFramesRows(a: Rect, b: Rect, threshold: int)
    requires a.y == b.y && IsSameRow(b, [a], threshold)
    ensures MangaRows([a, b], threshold) == [[a, b]]
  {
    TwoFramesSortedByTop(a, b);
    TwoFramesOneRow([a, b], threshold);
    OneRowSorted([a, b]);
  }

  lemma OneRowOrder(row: seq<Rect>)
    ensures Flatten(RightToLeft([row])) == SortBy(row, NegLeftKey())
  {
    var out := RightToLeft([row]);
    assert out == [SortBy(row, NegLeftKey())];
    assert Flatten(out) == out[0] + Flatten([]);
  }

  /** Two frames with the same top that share a row come out right to left. */
  lemma MangaOrderTwoFrames(a: Rect, b: Rect, threshold: int)
    requires a.y == b.y && a.x < b.x && IsSameRow(b, [a], threshold)
    ensures MangaOrder([a, b], threshold) == [b, a]
  {
    TwoFramesRows(a, b, threshold);
    OneRowOrder([a, b]);
    TwoFramesRightToLeft(a, b);
  }

  /** Frames (0,0,100,100) and (110,0,100,100) share a row, so the right one comes first. */
  lemma MangaOrderExample(a: Rect, b: Rect)
    requires a == Rect(0, 0, 100, 100) && b == Rect(110, 0, 100, 100)
    ensures MangaOrder([a, b], OverlapThreshold) == [b, a]
  {
    assert IsSameRow(b, [a], OverlapThreshold) by {
      assert [a][0] == a;
      assert VerticalOverlap(b, a) == 100;
    }
    MangaOrderTwoFrames(a, b, OverlapThreshold);
  }

  lemma RightToLeftSnoc(rows: seq<seq<Rect>>, k: nat)
    requires k < |rows|
    ensures Flatten(RightToLeft(rows[..k + 1])) == Flatten(RightToLeft(rows[..k])) + SortBy(rows[k], NegLeftKey())
  {
    assert RightToLeft(rows[..k + 1]) == RightToLeft(rows[..k]) + [SortBy(rows[k], NegLeftKey())];
    FlattenSnoc(RightToLeft(rows[..k]), SortBy(rows[k], NegLeftKey()));
  }

  lemma PlaceNotFound(rows: seq<seq<Rect>>, f: Rect, threshold: int)
    requires forall k :: 0 <= k < |rows| ==> !IsSameRow(f, rows[k], threshold)
    ensures Place(rows, f, threshold) == rows + [[f]]
  {
    PlaceJoinsFirstRow(rows, f, threshold);
  }

  /**
   * The inner loop of the bucketing: `f` joins the first row with a frame it
   * overlaps vertically, or starts a new row.
   */
  method PlaceInRow(rows: seq<seq<Rect>>, f: Rect, threshold: int) returns (r: seq<seq<Rect>>)
    ensures r == Place(rows, f, threshold)
  {
    r := rows;
    var placed := false;
    var j := 0;
    while j < |rows| && !placed
      invariant j <= |rows| == |r|
      invariant forall k :: 0 <= k < j ==> !IsSameRow(f, rows[k], threshold)
      invariant !placed ==> r == rows
      invariant placed ==> j < |rows| && IsSameRow(f, rows[j], threshold) &&
                           r == rows[j := rows[j] + [f]]
      decreases |rows| - j, !placed
    {
      if IsSameRow(f, r[j], threshold) {
        r := r[j := r[j] + [f]];
        placed := true;
      } else {
        j := j + 1;
      }
    }
    if placed {
      PlaceFound(rows, f, threshold, j);
    } else {
      PlaceNotFound(rows, f, threshold);
      r := r + [[f]];
    }
  }

  /**
   * `sort_frames_manga_style(frames, overlap_threshold)`: bucket the frames,
   * sorted by top, into rows; sort the rows by their tops; concatenate the
   * rows, each sorted right to left.
   */
  method SortFramesMangaStyle(frames: seq<Rect>, overlapThreshold: int) returns (result: seq<Rect>)
    ensures result == MangaOrder(frames, overlapThreshold)
  {
    var sorted := SortBy(frames, TopKey());
    var rows := GroupRows(sorted, overlapThreshold);
    rows := SortBy(rows, RowTopKey());
    result := ReadRows(rows);
  }

  /** The row loop of `sort_frames_manga_style`: each frame, top first, joins the first row it overlaps. */
  method GroupRows(sorted: seq<Rect>, overlapThreshold: int) returns (rows: seq<seq<Rect>>)
    ensures rows == PlaceAll(sorted, overlapThreshold)
  {
    rows := [];
    var i := 0;
    while i < |sorted|
      invariant i <= |sorted|
      invariant rows == PlaceAll(sorted[..i], overlapThreshold)
    {
      rows := PlaceInRow(rows, sorted[i], overlapThreshold);
      PlaceAllSnoc(sorted, i, overlapThreshold);
      i := i + 1;
    }
    assert sorted[..i] == sorted;
  }

  /** The read-out loop: row after row, each right to left. */
  method ReadRows(rows: seq<seq<Rect>>) returns (result: seq<Rect>)
    ensures result == Flatten(RightToLeft(rows))
  {
    result := [];
    var k := 0;
    while k < |rows|
      invariant k <= |rows|
      invariant result == Flatten(RightToLeft(rows[..k]))
    {
      RightToLeftSnoc(rows, k);
      result := result + SortBy(rows[k], NegLeftKey());
      k := k + 1;
    }
    assert rows[..k] == rows;
  }

  // ---------------------------------------------------------------------------
  // get_box_main_frame
  // ---------------------------------------------------------------------------

  /** `inter.width() * inter.height()` for `inter = box.intersected(f)`. */
  function InterArea(box: Rect, f: Rect): nat {
    Area(QIntersected(box, f))
  }

  /**
   * The position of the frame `get_box_main_frame` picks: the first frame
   * whose overlap with the box is largest, provided it is positive.
   */
  function MainFrameIndex(box: Rect, frames: seq<Rect>): (r: Option<nat>)
    ensures r.None? <==> forall k :: 0 <= k < |frames| ==> InterArea(box, frames[k]) == 0
    ensures r.Some? ==> r.value < |frames| && InterArea(box, frames[r.value]) > 0
    ensures r.Some? ==> forall k :: 0 <= k < |frames| ==> InterArea(box, frames[k]) <= InterArea(box, frames[r.value])
    ensures r.Some? ==> forall k :: 0 <= k < r.value ==> InterArea(box, frames[k]) < InterArea(box, frames[r.value])
  {
    if frames == [] then None
    else
      var init := frames[..|frames| - 1];
      assert forall k :: 0 <= k < |init| ==> init[k] == frames[k];
      var prev := MainFrameIndex(box, init);
      var best := if prev.Some? then InterArea(box, frames[prev.value]) else 0;
      if InterArea(box, frames[|frames| - 1]) > best then Some(|frames| - 1) else prev
  }

  /** The largest overlap seen so far, `max_inter`. */
  function BestArea(box: Rect, frames: seq<Rect>): nat {
    match MainFrameIndex(box, frames)
    case None => 0
    case Some(k) => InterArea(box, frames[k])
  }

  /** The frame `get_box_main_frame` returns. */
  function MainFrame(box: Rect, frames: seq<Rect>): Option<Rect> {
    match MainFrameIndex(box, frames)
    case None => None
    case Some(k) => Some(frames[k])
  }

  /** `get_box_main_frame(box, frame_rects)`. */
  method GetBoxMainFrame(box: Rect, frames: seq<Rect>) returns (mainFrame: Option<Rect>)
    ensures mainFrame.None? <==> MainFrameIndex(box, frames).None?
    ensures mainFrame.Some? ==> mainFrame.value == frames[MainFrameIndex(box, frames).value]
    ensures mainFrame == MainFrame(box, frames)
  {
    var maxInter := 0;
    mainFrame := None;
    var i := 0;
    while i < |frames|
      invariant i <= |frames|
      invariant maxInter == BestArea(box, frames[..i]) && mainFrame == MainFrame(box, frames[..i])
    {
      var f := frames[i];
      var area := InterArea(box, f);
      MainFrameStep(box, frames, i);
      if area > maxInter {
        maxInter := area;
        mainFrame := Some(f);
      }
      i := i + 1;
    }
    assert frames[..i] == frames;
  }

  /** One more frame: it becomes the main frame exactly when it overlaps more than the best so far. */
  lemma MainFrameStep(box: Rect, frames: seq<Rect>, i: nat)
    requires i < |frames|
    ensures var better := InterArea(box, frames[i]) > BestArea(box, frames[..i]);
            BestArea(box, frames[..i + 1]) == (if better then InterArea(box, frames[i]) else BestArea(box, frames[..i])) &&
            MainFrame(box, frames[..i + 1]) == (if better then Some(frames[i]) else MainFrame(box, frames[..i]))
  {
    var s := frames[..i + 1];
    assert s[..i] == frames[..i] && s[i] == frames[i];
    var prev := MainFrameIndex(box, frames[..i]);
    if prev.Some? {
      assert s[prev.value] == frames[prev.value];
    }
  }
}
