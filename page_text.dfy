/**
 * The batch text panel: after every page has been recognised it builds one
 * list of text lines for the whole batch (a header per page, then the
 * page's boxes frame by frame in manga reading order, then the boxes outside
 * every frame under a label), with the page each line starts at and the box
 * each line came from; it shows one page at a time with alternating row
 * backgrounds.
 */
module PageText {
  import opened Wrappers
  import opened Text
  import opened Sorting
  import opened Geometry
  import opened Grouping
  import opened ReadingOrder
  import opened Images

  /** One page of the batch result: the item, its boxes, and the frames the detector finds on its image. */
  datatype PageResult = PageResult(item: ImageItem, boxes: seq<TextBox>, frames: seq<Rect>)

  /** `(idx, real_box_idx)`: the page of a line and the position of its box in the page's list. */
  datatype BoxRef = BoxRef(page: nat, box: nat)

  /** A line of `all_text_lines` with its entry of `line_to_box_idx`. */
  datatype Line = Line(text: string, link: Option<BoxRef>)

  /** A box with its position in the page's list, which `boxes.index(tbox)` recovers. */
  datatype Numbered = Numbered(pos: nat, box: TextBox)

  const UnframedLabel := "[Вне фреймов]"

  function Numbering(boxes: seq<TextBox>): (r: seq<Numbered>)
    ensures |r| == |boxes| && forall i :: 0 <= i < |boxes| ==> r[i] == Numbered(i, boxes[i])
  {
    seq(|boxes|, i requires 0 <= i < |boxes| => Numbered(i, boxes[i]))
  }

  /** Every position occurs once, carrying its own box. */
  lemma {:induction false} NumberingCount(boxes: seq<TextBox>, x: Numbered)
    ensures multiset(Numbering(boxes))[x] == if x.pos < |boxes| && x.box == boxes[x.pos] then 1 else 0
  {
    if boxes != [] {
      var init := boxes[..|boxes| - 1];
      NumberingCount(init, x);
      assert Numbering(boxes) == Numbering(init) + [Numbered(|init|, boxes[|init|])];
    }
  }

  // ---------------------------------------------------------------------------
  // The lines of one page
  // ---------------------------------------------------------------------------

  /** A page whose image can be loaded: it has a path or a pixmap. */
  predicate HasImage(item: ImageItem) {
    item.path != "" || item.pixmap.Some?
  }

  /** The header line: the file stem of the path, else of the name, else the page number from 1. */
  function PageHeader(item: ImageItem, idx: nat): string {
    if item.path != "" then Stem(item.path)
    else if item.name != "" then Stem(item.name)
    else NatToString(idx + 1)
  }

  /** A box goes to the frame it overlaps most. */
  function MainTag(frames: seq<Rect>): Numbered -> Option<Rect> {
    (nb: Numbered) => MainFrame(nb.box.rect, frames)
  }

  /** `frame_dict` is keyed by every detected frame. */
  function FrameTag(): Rect -> Option<Rect> { (f: Rect) => Some(f) }

  function TolKey(): Numbered -> Key { (nb: Numbered) => ToleranceKey(XTolerance)(nb.box) }

  /** `(-b.rect.left(), b.rect.top())`. */
  function OutsideKey(): Numbered -> Key { (nb: Numbered) => Key(-nb.box.rect.x, nb.box.rect.y) }

  /** The distinct frames in reading order. */
  function FrameOrder(frames: seq<Rect>): seq<Rect> {
    MangaOrder(Keys(frames, FrameTag()), OverlapThreshold)
  }

  /** The boxes of frame `f`, sorted by column and top. */
  function FrameGroup(p: PageResult, f: Rect): seq<Numbered> {
    SortBy(Tagged(Numbering(p.boxes), MainTag(p.frames), f), TolKey())
  }

  /** The boxes of each frame of `order`, sorted by column and top. */
  function FrameGroups(p: PageResult, order: seq<Rect>): (g: seq<seq<Numbered>>)
    ensures |g| == |order|
    ensures forall k :: 0 <= k < |order| ==> g[k] == FrameGroup(p, order[k])
  {
    seq(|order|, k requires 0 <= k < |order| => FrameGroup(p, order[k]))
  }

  function FramedOrder(p: PageResult): seq<Numbered> {
    Flatten(FrameGroups(p, FrameOrder(p.frames)))
  }

  function Outside(p: PageResult): seq<Numbered> {
    Untagged(Numbering(p.boxes), MainTag(p.frames))
  }

  function OutsideOrder(p: PageResult): seq<Numbered> {
    SortBy(Outside(p), OutsideKey())
  }

  /** The order in which a page's boxes are listed. */
  function PageOrder(p: PageResult): seq<Numbered> {
    FramedOrder(p) + OutsideOrder(p)
  }

  function BoxLine(idx: nat, nb: Numbered): Line {
    Line(Strip(nb.box.text), Some(BoxRef(idx, nb.pos)))
  }

  function BoxLines(idx: nat, s: seq<Numbered>): (r: seq<Line>)
    ensures |r| == |s| && forall k :: 0 <= k < |s| ==> r[k] == BoxLine(idx, s[k])
  {
    seq(|s|, k requires 0 <= k < |s| => BoxLine(idx, s[k]))
  }

  /** The lines of a page with an image: its header, its framed boxes, and the label and its other boxes when there are any. */
  function Assemble(header: string, idx: nat, framed: seq<Numbered>, outside: seq<Numbered>): seq<Line> {
    [Line(header, None)] + BoxLines(idx, framed) +
    (if outside == [] then [] else [Line(UnframedLabel, None)] + BoxLines(idx, outside))
  }

  /** The lines `on_finished` appends for page `idx`. */
  function PageLines(p: PageResult, idx: nat): seq<Line> {
    if HasImage(p.item) then Assemble(PageHeader(p.item, idx), idx, FramedOrder(p), OutsideOrder(p))
    else [Line(PageHeader(p.item, idx), None)]
  }

  // ---------------------------------------------------------------------------
  // What the lines of a page hold
  // ---------------------------------------------------------------------------

  /** Each frame's sorted boxes are the boxes tagged with it. */
  lemma FrameGroupsPointwise(p: PageResult, order: seq<Rect>)
    ensures var g := GroupsOf(Numbering(p.boxes), MainTag(p.frames), order);
            |FrameGroups(p, order)| == |g| &&
            forall k :: 0 <= k < |g| ==> multiset(FrameGroups(p, order)[k]) == multiset(g[k])
  {
    var g := GroupsOf(Numbering(p.boxes), MainTag(p.frames), order);
    forall k | 0 <= k < |g| ensures multiset(FrameGroups(p, order)[k]) == multiset(g[k]) {
      assert FrameGroups(p, order)[k] == FrameGroup(p, order[k]);
      assert g[k] == Tagged(Numbering(p.boxes), MainTag(p.frames), order[k]);
    }
  }

  /** The framed part takes every box that has a main frame exactly once. */
  lemma FramedPermutation(p: PageResult)
    ensures multiset(FramedOrder(p)) == multiset(AnyTagged(Numbering(p.boxes), MainTag(p.frames)))
  {
    var s := Numbering(p.boxes);
    var tag := MainTag(p.frames);
    var keys := Keys(p.frames, FrameTag());
    var order := FrameOrder(p.frames);
    MangaOrderPermutation(keys, OverlapThreshold);
    KeysDistinct(p.frames, FrameTag());
    assert Distinct(order);
    forall k | 0 <= k < |s| && tag(s[k]).Some? ensures tag(s[k]).value in order {
      MainFrameIsKey(s[k].box.rect, p.frames);
      assert tag(s[k]).value in multiset(keys);
    }
    FrameGroupsPointwise(p, order);
    FlattenPointwiseMultiset(FrameGroups(p, order), GroupsOf(s, tag, order));
    GroupsOfMultiset(s, tag, order);
    TaggedInAll(s, tag, order);
  }

  /** The boxes of a page are listed in an order that takes each exactly once. */
  lemma PageOrderPermutation(p: PageResult)
    ensures multiset(PageOrder(p)) == multiset(Numbering(p.boxes))
  {
    FramedPermutation(p);
    assert multiset(OutsideOrder(p)) == multiset(Outside(p));
    TaggedUntaggedSplit(Numbering(p.boxes), MainTag(p.frames));
  }

  /** The frame a box goes to is one of the keys of `frame_dict`. */
  lemma MainFrameIsKey(box: Rect, frames: seq<Rect>)
    ensures MainFrame(box, frames).Some? ==> MainFrame(box, frames).value in Keys(frames, FrameTag())
  {
    var m := MainFrameIndex(box, frames);
    if m.Some? {
      assert FrameTag()(frames[m.value]).Some?;
    }
  }

  /** The boxes of a page are listed with their own positions. */
  lemma PageOrderFromBoxes(p: PageResult)
    ensures FromBoxes(FramedOrder(p), p.boxes) && FromBoxes(OutsideOrder(p), p.boxes)
    ensures |FramedOrder(p)| + |OutsideOrder(p)| == |p.boxes|
  {
    var order := PageOrder(p);
    PageOrderPermutation(p);
    assert |order| == |multiset(order)|;
    forall k | 0 <= k < |order| ensures order[k].pos < |p.boxes| && order[k].box == p.boxes[order[k].pos] {
      assert order[k] in multiset(Numbering(p.boxes));
      NumberingCount(p.boxes, order[k]);
    }
    FromBoxesSplit(FramedOrder(p), OutsideOrder(p), p.boxes);
  }

  lemma FromBoxesSplit(a: seq<Numbered>, b: seq<Numbered>, boxes: seq<TextBox>)
    requires FromBoxes(a + b, boxes)
    ensures FromBoxes(a, boxes) && FromBoxes(b, boxes)
  {
    forall k | 0 <= k < |a| ensures a[k] == (a + b)[k] {
    }
    forall k | 0 <= k < |b| ensures b[k] == (a + b)[|a| + k] {
    }
  }

  /** The link column of a page's lines, run by run. */
  lemma AssembleLinks(header: string, idx: nat, framed: seq<Numbered>, outside: seq<Numbered>)
    ensures Links(Assemble(header, idx, framed, outside)) ==
            [None] + Links(BoxLines(idx, framed)) +
            (if outside == [] then [] else [None] + Links(BoxLines(idx, outside)))
  {
    var head := [Line(header, None)];
    var f := BoxLines(idx, framed);
    LinksAppend(head, f);
    assert Links(head) == [None];
    if outside == [] {
      assert Assemble(header, idx, framed, outside) == head + f;
    } else {
      var tag := [Line(UnframedLabel, None)];
      var o := BoxLines(idx, outside);
      assert Assemble(header, idx, framed, outside) == (head + f) + (tag + o);
      LinksAppend(head + f, tag + o);
      LinksAppend(tag, o);
      assert Links(tag) == [None];
    }
  }

  /** A box of the page occurs among the links as often as among the listed boxes. */
  lemma AssembleOnce(header: string, idx: nat, framed: seq<Numbered>, outside: seq<Numbered>, boxes: seq<TextBox>, i: nat)
    requires i < |boxes| && FromBoxes(framed, boxes) && FromBoxes(outside, boxes)
    ensures multiset(Links(Assemble(header, idx, framed, outside)))[Some(BoxRef(idx, i))] ==
            multiset(framed + outside)[Numbered(i, boxes[i])]
  {
    AssembleLinks(header, idx, framed, outside);
    LinkCount(idx, framed, boxes, i);
    LinkCount(idx, outside, boxes, i);
    CountAround(Links(BoxLines(idx, framed)), Links(BoxLines(idx, outside)), None, Some(BoxRef(idx, i)));
    CountAppend(framed, outside, Numbered(i, boxes[i]));
  }

  /** Occurrences of `y` around two separators `z != y`. */
  lemma CountAround<T>(a: seq<T>, b: seq<T>, z: T, y: T)
    requires z != y
    ensures multiset([z] + a + (if b == [] then [] else [z] + b))[y] == multiset(a)[y] + multiset(b)[y]
  {
    if b == [] {
      assert [z] + a + [] == [z] + a;
    } else {
      assert multiset([z] + a + ([z] + b)) == multiset{z} + multiset(a) + (multiset{z} + multiset(b));
    }
  }

  lemma CountAppend<T>(a: seq<T>, b: seq<T>, y: T)
    ensures multiset(a + b)[y] == multiset(a)[y] + multiset(b)[y]
  {
  }

  /** `l` links to page `idx`, at a position of `boxes`, and shows that box's stripped text. */
  predicate LinkedTo(l: Line, idx: nat, boxes: seq<TextBox>)
    requires l.link.Some?
  {
    l.link.value.page == idx && l.link.value.box < |boxes| && l.text == Strip(boxes[l.link.value.box].text)
  }

  /** A line after the header: the label, or a line linked to a box of the page. */
  predicate BodyLine(l: Line, idx: nat, boxes: seq<TextBox>) {
    (l.link.None? ==> l.text == UnframedLabel) && (l.link.Some? ==> LinkedTo(l, idx, boxes))
  }

  predicate LinesShape(lines: seq<Line>, idx: nat, boxes: seq<TextBox>) {
    forall k :: 1 <= k < |lines| ==> BodyLine(lines[k], idx, boxes)
  }

  predicate AllBody(lines: seq<Line>, idx: nat, boxes: seq<TextBox>) {
    forall k :: 0 <= k < |lines| ==> BodyLine(lines[k], idx, boxes)
  }

  lemma BoxLinesBody(idx: nat, s: seq<Numbered>, boxes: seq<TextBox>)
    requires FromBoxes(s, boxes)
    ensures AllBody(BoxLines(idx, s), idx, boxes)
  {
  }

  lemma AllBodyAppend(a: seq<Line>, b: seq<Line>, idx: nat, boxes: seq<TextBox>)
    requires AllBody(a, idx, boxes) && AllBody(b, idx, boxes)
    ensures AllBody(a + b, idx, boxes)
  {
    forall k | 0 <= k < |a + b| ensures BodyLine((a + b)[k], idx, boxes) {
      if k < |a| {
        assert (a + b)[k] == a[k];
      } else {
        assert (a + b)[k] == b[k - |a|];
      }
    }
  }

  /** The lines after the header. */
  function AssembleBody(idx: nat, framed: seq<Numbered>, outside: seq<Numbered>): seq<Line> {
    BoxLines(idx, framed) + (if outside == [] then [] else [Line(UnframedLabel, None)] + BoxLines(idx, outside))
  }

  lemma AssembleBodyShape(idx: nat, framed: seq<Numbered>, outside: seq<Numbered>, boxes: seq<TextBox>)
    requires FromBoxes(framed, boxes) && FromBoxes(outside, boxes)
    ensures AllBody(AssembleBody(idx, framed, outside), idx, boxes)
  {
    BoxLinesBody(idx, framed, boxes);
    if outside != [] {
      var tagLine := [Line(UnframedLabel, None)];
      BoxLinesBody(idx, outside, boxes);
      assert AllBody(tagLine, idx, boxes);
      AllBodyAppend(tagLine, BoxLines(idx, outside), idx, boxes);
      AllBodyAppend(BoxLines(idx, framed), tagLine + BoxLines(idx, outside), idx, boxes);
    } else {
      assert AssembleBody(idx, framed, outside) == BoxLines(idx, framed);
    }
  }

  lemma HeaderThenBody(h: Line, body: seq<Line>, idx: nat, boxes: seq<TextBox>)
    requires AllBody(body, idx, boxes)
    ensures LinesShape([h] + body, idx, boxes)
  {
    var lines := [h] + body;
    forall k | 1 <= k < |lines| ensures BodyLine(lines[k], idx, boxes) {
      assert lines[k] == body[k - 1];
    }
  }

  /**
   * After the header, a line without a box is the label, and a line with a
   * box links to page `idx` and to a position in `boxes`, and shows that
   * box's stripped text.
   */
  lemma AssembleShape(header: string, idx: nat, framed: seq<Numbered>, outside: seq<Numbered>, boxes: seq<TextBox>)
    requires FromBoxes(framed, boxes) && FromBoxes(outside, boxes)
    ensures LinesShape(Assemble(header, idx, framed, outside), idx, boxes)
  {
    AssembleBodyShape(idx, framed, outside, boxes);
    var body := AssembleBody(idx, framed, outside);
    assert Assemble(header, idx, framed, outside) == [Line(header, None)] + body;
    HeaderThenBody(Line(header, None), body, idx, boxes);
  }

  /** A page with an image has its header, one line per box, and the label when some box is outside every frame. */
  lemma PageLinesCount(p: PageResult, idx: nat)
    ensures |PageLines(p, idx)| ==
            if HasImage(p.item) then 1 + |p.boxes| + (if Outside(p) == [] then 0 else 1) else 1
    ensures PageLines(p, idx)[0] == Line(PageHeader(p.item, idx), None)
  {
    PageOrderFromBoxes(p);
    assert |Outside(p)| == |OutsideOrder(p)|;
  }

  /** The header is the only unlinked line but the label, and every linked line shows its box of this page. */
  lemma PageLinesLinks(p: PageResult, idx: nat)
    ensures PageLines(p, idx)[0].link.None?
    ensures LinesShape(PageLines(p, idx), idx, p.boxes)
  {
    PageOrderFromBoxes(p);
    AssembleShape(PageHeader(p.item, idx), idx, FramedOrder(p), OutsideOrder(p), p.boxes);
  }

  /** Each box of a page with an image is on exactly one line. */
  lemma PageBoxOnce(p: PageResult, idx: nat, i: nat)
    requires HasImage(p.item) && i < |p.boxes|
    ensures multiset(Links(PageLines(p, idx)))[Some(BoxRef(idx, i))] == 1
  {
    PageOrderPermutation(p);
    PageOrderFromBoxes(p);
    NumberingCount(p.boxes, Numbered(i, p.boxes[i]));
    AssembleOnce(PageHeader(p.item, idx), idx, FramedOrder(p), OutsideOrder(p), p.boxes, i);
  }

  /** Every numbered box of `s` carries the box at its position in `boxes`. */
  predicate FromBoxes(s: seq<Numbered>, boxes: seq<TextBox>) {
    forall k :: 0 <= k < |s| ==> s[k].pos < |boxes| && s[k].box == boxes[s[k].pos]
  }

  lemma LinksSnoc(idx: nat, s: seq<Numbered>, x: Numbered)
    ensures Links(BoxLines(idx, s + [x])) == Links(BoxLines(idx, s)) + [Some(BoxRef(idx, x.pos))]
  {
  }

  /**
   * Among lines made from numbered boxes of `boxes`, the lines that link to
   * position `i` are as many as the occurrences of that box.
   */
  lemma {:induction false} LinkCount(idx: nat, s: seq<Numbered>, boxes: seq<TextBox>, i: nat)
    requires i < |boxes| && FromBoxes(s, boxes)
    ensures multiset(Links(BoxLines(idx, s)))[Some(BoxRef(idx, i))] == multiset(s)[Numbered(i, boxes[i])]
  {
    if s == [] {
      assert Links(BoxLines(idx, s)) == [];
    } else {
      var init := s[..|s| - 1];
      var x := s[|s| - 1];
      assert s == init + [x];
      FromBoxesInit(s, boxes);
      LinkCount(idx, init, boxes, i);
      LinksSnoc(idx, init, x);
      CountSnoc(Links(BoxLines(idx, init)), Some(BoxRef(idx, x.pos)), Some(BoxRef(idx, i)));
      CountSnoc(init, x, Numbered(i, boxes[i]));
      assert x.box == boxes[x.pos];
    }
  }

  lemma FromBoxesInit(s: seq<Numbered>, boxes: seq<TextBox>)
    requires s != [] && FromBoxes(s, boxes)
    ensures FromBoxes(s[..|s| - 1], boxes)
  {
    var init := s[..|s| - 1];
    forall k | 0 <= k < |init| ensures init[k].pos < |boxes| && init[k].box == boxes[init[k].pos] {
      assert init[k] == s[k];
    }
  }

  lemma CountSnoc<T>(s: seq<T>, x: T, y: T)
    ensures multiset(s + [x])[y] == multiset(s)[y] + (if x == y then 1 else 0)
  {
    assert multiset(s + [x]) == multiset(s) + multiset{x};
  }

  function Texts(lines: seq<Line>): (r: seq<string>)
    ensures |r| == |lines| && forall k :: 0 <= k < |lines| ==> r[k] == lines[k].text
  {
    seq(|lines|, k requires 0 <= k < |lines| => lines[k].text)
  }

  function Links(lines: seq<Line>): (r: seq<Option<BoxRef>>)
    ensures |r| == |lines| && forall k :: 0 <= k < |lines| ==> r[k] == lines[k].link
  {
    seq(|lines|, k requires 0 <= k < |lines| => lines[k].link)
  }

  lemma LinksAppend(a: seq<Line>, b: seq<Line>)
    ensures Links(a + b) == Links(a) + Links(b) && Texts(a + b) == Texts(a) + Texts(b)
  {
  }

  // ---------------------------------------------------------------------------
  // The lines of the whole batch
  // ---------------------------------------------------------------------------

  /** The lines of every page. */
  function Pages(results: seq<PageResult>): (r: seq<seq<Line>>)
    ensures |r| == |results| && forall k :: 0 <= k < |results| ==> r[k] == PageLines(results[k], k)
  {
    seq(|results|, k requires 0 <= k < |results| => PageLines(results[k], k))
  }

  /** `all_text_lines` with `line_to_box_idx`: all lines, page after page. */
  function AllLines(results: seq<PageResult>): seq<Line> {
    Flatten(Pages(results))
  }

  /** Where each page starts once the pages are put end to end. */
  function Starts<T>(pages: seq<seq<T>>): (r: seq<nat>)
    ensures |r| == |pages| && forall k :: 0 <= k < |pages| ==> r[k] == |Flatten(pages[..k])|
  {
    seq(|pages|, k requires 0 <= k < |pages| => |Flatten(pages[..k])|)
  }

  /** `page_indices`. */
  function PageStarts(results: seq<PageResult>): seq<nat> {
    Starts(Pages(results))
  }

  /** Page starts rise strictly and stay inside the list of lines. */
  predicate StartsValid(n: nat, starts: seq<nat>) {
    (forall i, j :: 0 <= i < j < |starts| ==> starts[i] < starts[j]) &&
    (forall i :: 0 <= i < |starts| ==> starts[i] < n)
  }

  predicate NonEmptyPages<T>(pages: seq<seq<T>>) {
    forall k :: 0 <= k < |pages| ==> pages[k] != []
  }

  lemma FlattenTake<T>(pages: seq<seq<T>>, k: nat)
    requires k < |pages|
    ensures Flatten(pages[..k + 1]) == Flatten(pages[..k]) + pages[k]
  {
    assert pages[..k + 1] == pages[..k] + [pages[k]];
    FlattenSnoc(pages[..k], pages[k]);
  }

  /** The first pages' lines begin the lines of more pages, and are shorter when no page is empty. */
  lemma {:induction false} FlattenPrefix<T>(pages: seq<seq<T>>, m: nat, n: nat)
    requires m <= n <= |pages|
    ensures Flatten(pages[..m]) <= Flatten(pages[..n])
    ensures NonEmptyPages(pages) && m < n ==> |Flatten(pages[..m])| < |Flatten(pages[..n])|
    decreases n
  {
    if m < n {
      FlattenPrefix(pages, m, n - 1);
      FlattenTake(pages, n - 1);
    }
  }

  /** Where page `k` ends: the next page's start, or the end of the lines. */
  function EndOf<T>(pages: seq<seq<T>>, k: nat): nat
    requires k < |pages|
  {
    if k + 1 < |pages| then Starts(pages)[k + 1] else |Flatten(pages)|
  }

  lemma StartsRise<T>(pages: seq<seq<T>>)
    requires NonEmptyPages(pages)
    ensures StartsValid(|Flatten(pages)|, Starts(pages))
  {
    var starts := Starts(pages);
    forall i, j | 0 <= i < j < |starts| ensures starts[i] < starts[j] {
      FlattenPrefix(pages, i, j);
    }
    forall i | 0 <= i < |starts| ensures starts[i] < |Flatten(pages)| {
      FlattenPrefix(pages, i, |pages|);
      assert pages[..|pages|] == pages;
    }
  }

  /** The lines from a page's start to its end are that page's lines. */
  lemma StartsSlice<T>(pages: seq<seq<T>>, k: nat)
    requires k < |pages|
    ensures Starts(pages)[k] <= EndOf(pages, k) <= |Flatten(pages)|
    ensures Flatten(pages)[Starts(pages)[k]..EndOf(pages, k)] == pages[k]
  {
    var a := Flatten(pages[..k]);
    var b := Flatten(pages[..k + 1]);
    FlattenTake(pages, k);
    FlattenPrefix(pages, k + 1, |pages|);
    assert pages[..|pages|] == pages;
    assert EndOf(pages, k) == |b|;
    assert Flatten(pages)[|a|..|b|] == b[|a|..];
  }

  /** Every page has at least its header. */
  lemma PagesNonEmpty(results: seq<PageResult>)
    ensures NonEmptyPages(Pages(results))
  {
  }

  /** `page_indices` is strictly increasing and every page starts inside the list. */
  lemma PageStartsValid(results: seq<PageResult>)
    ensures StartsValid(|AllLines(results)|, PageStarts(results))
  {
    PagesNonEmpty(results);
    StartsRise(Pages(results));
  }

  /** Every page starts with its header line, which has no box. */
  lemma PageStartHeader(results: seq<PageResult>, k: nat)
    requires k < |results|
    ensures PageStarts(results)[k] < |AllLines(results)|
    ensures AllLines(results)[PageStarts(results)[k]] == Line(PageHeader(results[k].item, k), None)
  {
    var pages := Pages(results);
    StartsSlice(pages, k);
    PageLinesCount(results[k], k);
    assert Flatten(pages)[Starts(pages)[k]] == pages[k][0];
  }

  /** The lines `on_finished` as written has appended, and whether it raised. */
  datatype Finished = Finished(lines: seq<Line>, raised: bool)

  /** A page whose image `on_finished` as written reads from `self.image_item`, which the panel does not have. */
  predicate ReadsMissingItem(item: ImageItem) {
    item.path == "" && item.pixmap.Some?
  }

  /**
   * `on_finished` as written, from page `k` on: a page with a pixmap and no
   * path raises `AttributeError` right after its header is appended, and no
   * later page is listed.
   */
  function FinishedFrom(results: seq<PageResult>, k: nat): Finished
    requires k <= |results|
    decreases |results| - k
  {
    if k == |results| then Finished([], false)
    else if ReadsMissingItem(results[k].item) then Finished([Line(PageHeader(results[k].item, k), None)], true)
    else
      var rest := FinishedFrom(results, k + 1);
      Finished(PageLines(results[k], k) + rest.lines, rest.raised)
  }

  function OnFinishedAsWritten(results: seq<PageResult>): Finished {
    FinishedFrom(results, 0)
  }

  lemma {:induction false} FinishedFromPages(results: seq<PageResult>, k: nat)
    requires k <= |results| && forall m :: k <= m < |results| ==> !ReadsMissingItem(results[m].item)
    ensures FinishedFrom(results, k) == Finished(Flatten(Pages(results)[k..]), false)
    decreases |results| - k
  {
    if k < |results| {
      FinishedFromPages(results, k + 1);
      FlattenFrom(Pages(results), k);
    } else {
      assert Pages(results)[k..] == [];
    }
  }

  lemma FlattenFrom<T>(pages: seq<seq<T>>, k: nat)
    requires k < |pages|
    ensures Flatten(pages[k..]) == pages[k] + Flatten(pages[k + 1..])
  {
    assert pages[k..][1..] == pages[k + 1..];
  }

  /** Without a page that has only a pixmap, `on_finished` as written lists every page as `AllLines` does. */
  lemma AsWrittenWithoutPixmapPages(results: seq<PageResult>)
    requires forall m :: 0 <= m < |results| ==> !ReadsMissingItem(results[m].item)
    ensures OnFinishedAsWritten(results) == Finished(AllLines(results), false)
  {
    FinishedFromPages(results, 0);
    assert Pages(results)[0..] == Pages(results);
  }

  /**
   * A page with a pixmap, no path and some boxes: as written, the handler
   * raises after the header alone, where `AllLines` lists the page's boxes.
   */
  lemma AsWrittenStopsAtPixmapPage(p: PageResult)
    requires ReadsMissingItem(p.item) && p.boxes != []
    ensures OnFinishedAsWritten([p]) == Finished([Line(PageHeader(p.item, 0), None)], true)
    ensures |AllLines([p])| > 1
  {
    PageLinesCount(p, 0);
    assert Pages([p]) == [PageLines(p, 0)];
    assert Flatten([PageLines(p, 0)]) == PageLines(p, 0) + Flatten([]);
  }

  // ---------------------------------------------------------------------------
  // show_selected_page_text, set_zebra_text
  // ---------------------------------------------------------------------------

  /** `lines[a:b]` for non-negative bounds: both are clamped to the length, and a reversed range is empty. */
  function PySlice(lines: seq<string>, a: nat, b: nat): (r: seq<string>)
    ensures a <= b <= |lines| ==> r == lines[a..b]
    ensures |r| <= |lines|
  {
    var lo := if a < |lines| then a else |lines|;
    var hi := if b < |lines| then b else |lines|;
    if hi <= lo then [] else lines[lo..hi]
  }

  /** The lines `show_selected_page_text(pageIdx)` shows, or None when it clears the view. */
  function SelectedLines(lines: seq<string>, starts: seq<nat>, pageIdx: int): (r: Option<seq<string>>)
    ensures r.None? <==> lines == [] || pageIdx < 0 || pageIdx >= |starts|
  {
    if lines == [] || pageIdx < 0 || pageIdx >= |starts| then None
    else
      var end := if pageIdx + 1 < |starts| then starts[pageIdx + 1] else |lines|;
      Some(PySlice(lines, starts[pageIdx], end))
  }

  lemma TextsSlice(lines: seq<Line>, a: nat, b: nat)
    requires a <= b <= |lines|
    ensures Texts(lines)[a..b] == Texts(lines[a..b])
  {
  }

  /** Selecting a page of the batch shows exactly that page's lines. */
  lemma SelectedIsPage(results: seq<PageResult>, k: nat)
    requires k < |results|
    ensures SelectedLines(Texts(AllLines(results)), PageStarts(results), k) == Some(Texts(PageLines(results[k], k)))
  {
    var pages := Pages(results);
    PagesNonEmpty(results);
    StartsSlice(pages, k);
    TextsSlice(Flatten(pages), Starts(pages)[k], EndOf(pages, k));
  }

  /** A row of the view: the header, or a line on a background. */
  datatype ZebraRow = HeaderRow(text: string) | BodyRow(text: string, background: string)

  function ZebraColour(z: nat): string {
    if z % 2 == 0 then "#444444" else "#121212"
  }

  /** The rows `set_zebra_text(lines)` renders. */
  function ZebraRows(lines: seq<string>): (r: seq<ZebraRow>)
    ensures |r| == |lines|
  {
    seq(|lines|, i requires 0 <= i < |lines| => if i == 0 then HeaderRow(lines[0]) else BodyRow(lines[i], ZebraColour(i - 1)))
  }

  /**
   * Line 0 is the header; every later line keeps its text, the first of them
   * is on "#444444", and neighbouring lines have different backgrounds.
   */
  lemma ZebraAlternates(lines: seq<string>)
    ensures lines != [] ==> ZebraRows(lines)[0] == HeaderRow(lines[0])
    ensures forall i :: 1 <= i < |lines| ==> ZebraRows(lines)[i].BodyRow? && ZebraRows(lines)[i].text == lines[i]
    ensures |lines| > 1 ==> ZebraRows(lines)[1].background == "#444444"
    ensures forall i :: 1 <= i < |lines| - 1 ==> ZebraRows(lines)[i].background != ZebraRows(lines)[i + 1].background
  {
    forall i | 1 <= i < |lines| - 1 ensures ZebraRows(lines)[i].background != ZebraRows(lines)[i + 1].background {
      assert (i - 1) % 2 != i % 2;
    }
  }

  // ---------------------------------------------------------------------------
  // imwrite_unicode: the file name written
  // ---------------------------------------------------------------------------

  /** The path written and the encoder extension. */
  datatype Target = Target(path: string, ext: string)

  /** A path without an extension gets ".png", which is also the encoding. */
  function ImwriteTarget(path: string): (t: Target)
    ensures Extension(path) == [] ==> t == Target(path + ".png", ".png")
    ensures Extension(path) != [] ==> t == Target(path, Lower(Extension(path)))
  {
    var ext := Lower(Extension(path));
    if ext == "" then Target(path + ".png", ".png") else Target(path, ext)
  }

  /** When the base name has something besides dots, the appended ".png" is the written file's extension. */
  lemma ImwritePngExtension(path: string, k: nat)
    requires Extension(path) == [] && k < |Basename(path)| && Basename(path)[k] != '.'
    ensures Extension(ImwriteTarget(path).path) == ".png"
  {
    assert ImwriteTarget(path).path == path + ".png";
    BasenamePng(path);
    PngExtension(path + ".png", Basename(path), k);
  }

  lemma BasenamePng(path: string)
    ensures Basename(path + ".png") == Basename(path) + ".png"
  {
    var png := ".png";
    assert forall k :: 0 <= k < |png| ==> png[k] != '/';
    BasenameAppend(path, png);
  }

  lemma PngExtension(q: string, b: string, k: nat)
    requires Basename(q) == b + ".png" && k < |b| && b[k] != '.'
    ensures Extension(q) == ".png"
  {
    PngLastDot(b);
    assert Basename(q)[k] == b[k];
    assert HasNonDotBefore(Basename(q), |b|);
    assert Basename(q)[|b|..] == ".png";
  }

  lemma PngLastDot(b: string)
    ensures LastIndexOf(b + ".png", '.') == Some(|b|)
  {
    var t := b + ".png";
    assert t[|b|] == '.' && t[|b| + 1] == 'p' && t[|b| + 2] == 'n' && t[|b| + 3] == 'g';
    LastIndexOfIs(t, '.', |b|);
  }

  /** The last occurrence is the one with no other after it. */
  lemma {:induction false} LastIndexOfIs(s: string, c: char, i: nat)
    requires i < |s| && s[i] == c && forall k :: i < k < |s| ==> s[k] != c
    ensures LastIndexOf(s, c) == Some(i)
  {
    if i < |s| - 1 {
      var init := s[..|s| - 1];
      assert init[i] == c;
      LastIndexOfIs(init, c, i);
    }
  }

  /** Appending a name without a slash extends the base name. */
  lemma BasenameAppend(path: string, suffix: string)
    requires forall k :: 0 <= k < |suffix| ==> suffix[k] != '/'
    ensures Basename(path + suffix) == Basename(path) + suffix
  {
    LastIndexOfAppend(path, suffix, '/');
  }

  lemma {:induction false} LastIndexOfAppend(s: string, suffix: string, c: char)
    requires forall k :: 0 <= k < |suffix| ==> suffix[k] != c
    ensures LastIndexOf(s + suffix, c) == LastIndexOf(s, c)
    decreases |suffix|
  {
    if suffix != [] {
      var t := s + suffix;
      assert t[..|t| - 1] == s + suffix[..|suffix| - 1];
      LastIndexOfAppend(s, suffix[..|suffix| - 1], c);
    } else {
      assert s + suffix == s;
    }
  }

  // ---------------------------------------------------------------------------
  // The loops of on_finished
  // ---------------------------------------------------------------------------

  /** `d` maps exactly the keys to the elements of `s` tagged with each, and `u` holds the untagged ones. */
  ghost predicate GroupState<T, K(!new)>(s: seq<T>, tag: T -> Option<K>, keys: seq<K>, d: map<K, seq<T>>, u: seq<T>) {
    (forall f :: f in d <==> f in keys) &&
    (forall f :: f in d ==> d[f] == Tagged(s, tag, f)) &&
    u == Untagged(s, tag)
  }

  /** What `frame_dict` and `unframed` hold after the boxes before `i`. */
  ghost predicate AssignState(boxes: seq<TextBox>, frames: seq<Rect>, i: nat, keys: seq<Rect>,
                              frameDict: map<Rect, seq<Numbered>>, unframed: seq<Numbered>) {
    i <= |boxes| && GroupState(Numbering(boxes)[..i], MainTag(frames), keys, frameDict, unframed)
  }

  lemma NumberingTake(boxes: seq<TextBox>, i: nat)
    requires i < |boxes|
    ensures Numbering(boxes)[..i + 1] == Numbering(boxes)[..i] + [Numbered(i, boxes[i])]
  {
  }

  lemma TaggedSnoc<T, K>(s: seq<T>, x: T, tag: T -> Option<K>, f: K)
    ensures Tagged(s + [x], tag, f) == Tagged(s, tag, f) + (if tag(x) == Some(f) then [x] else [])
  {
    assert (s + [x])[..|s|] == s;
  }

  lemma UntaggedSnoc<T, K>(s: seq<T>, x: T, tag: T -> Option<K>)
    ensures Untagged(s + [x], tag) == Untagged(s, tag) + (if tag(x).None? then [x] else [])
  {
    assert (s + [x])[..|s|] == s;
  }

  /** An element with a tag joins the list of that tag. */
  lemma GroupStateTagged<T, K(!new)>(s: seq<T>, x: T, tag: T -> Option<K>, keys: seq<K>, d: map<K, seq<T>>, u: seq<T>, m: K)
    requires GroupState(s, tag, keys, d, u) && m in d && tag(x) == Some(m)
    ensures GroupState(s + [x], tag, keys, d[m := d[m] + [x]], u)
  {
    var e := d[m := d[m] + [x]];
    forall f | f in e ensures e[f] == Tagged(s + [x], tag, f) {
      TaggedSnoc(s, x, tag, f);
    }
    UntaggedSnoc(s, x, tag);
  }

  /** An element without one joins the untagged list. */
  lemma GroupStateUntagged<T, K(!new)>(s: seq<T>, x: T, tag: T -> Option<K>, keys: seq<K>, d: map<K, seq<T>>, u: seq<T>)
    requires GroupState(s, tag, keys, d, u) && tag(x).None?
    ensures GroupState(s + [x], tag, keys, d, u + [x])
  {
    forall f | f in d ensures d[f] == Tagged(s + [x], tag, f) {
      TaggedSnoc(s, x, tag, f);
    }
    UntaggedSnoc(s, x, tag);
  }

  /** A box with a main frame joins that frame's list. */
  lemma AssignFramed(boxes: seq<TextBox>, frames: seq<Rect>, i: nat, keys: seq<Rect>,
                     frameDict: map<Rect, seq<Numbered>>, unframed: seq<Numbered>, m: Rect)
    requires i < |boxes| && AssignState(boxes, frames, i, keys, frameDict, unframed)
    requires keys == Keys(frames, FrameTag()) && MainFrame(boxes[i].rect, frames) == Some(m)
    ensures m in frameDict
    ensures AssignState(boxes, frames, i + 1, keys, frameDict[m := frameDict[m] + [Numbered(i, boxes[i])]], unframed)
  {
    MainFrameIsKey(boxes[i].rect, frames);
    NumberingTake(boxes, i);
    var nb := Numbered(i, boxes[i]);
    assert MainTag(frames)(nb) == Some(m);
    GroupStateTagged(Numbering(boxes)[..i], nb, MainTag(frames), keys, frameDict, unframed, m);
  }

  /** A box without one joins `unframed`. */
  lemma AssignOutside(boxes: seq<TextBox>, frames: seq<Rect>, i: nat, keys: seq<Rect>,
                      frameDict: map<Rect, seq<Numbered>>, unframed: seq<Numbered>)
    requires i < |boxes| && AssignState(boxes, frames, i, keys, frameDict, unframed)
    requires MainFrame(boxes[i].rect, frames).None?
    ensures AssignState(boxes, frames, i + 1, keys, frameDict, unframed + [Numbered(i, boxes[i])])
  {
    NumberingTake(boxes, i);
    var nb := Numbered(i, boxes[i]);
    assert MainTag(frames)(nb).None?;
    GroupStateUntagged(Numbering(boxes)[..i], nb, MainTag(frames), keys, frameDict, unframed);
  }

  /** The box loop of `on_finished`: each box joins its main frame's list or `unframed`. */
  method AssignBoxes(boxes: seq<TextBox>, frames: seq<Rect>)
    returns (keys: seq<Rect>, frameDict: map<Rect, seq<Numbered>>, unframed: seq<Numbered>)
    ensures keys == Keys(frames, FrameTag())
    ensures forall f :: f in frameDict <==> f in keys
    ensures forall f :: f in frameDict ==> frameDict[f] == Tagged(Numbering(boxes), MainTag(frames), f)
    ensures unframed == Untagged(Numbering(boxes), MainTag(frames))
  {
    keys := Keys(frames, FrameTag());
    frameDict := map f | f in keys :: [];
    unframed := [];
    var i := 0;
    while i < |boxes|
      invariant AssignState(boxes, frames, i, keys, frameDict, unframed)
    {
      var main := GetBoxMainFrame(boxes[i].rect, frames);
      if main.Some? {
        AssignFramed(boxes, frames, i, keys, frameDict, unframed, main.value);
        frameDict := frameDict[main.value := frameDict[main.value] + [Numbered(i, boxes[i])]];
      } else {
        AssignOutside(boxes, frames, i, keys, frameDict, unframed);
        unframed := unframed + [Numbered(i, boxes[i])];
      }
      i := i + 1;
    }
    assert Numbering(boxes)[..i] == Numbering(boxes);
  }

  /** The line loop over the boxes of one frame or of `unframed`. */
  method EmitBoxes(idx: nat, s: seq<Numbered>) returns (lines: seq<Line>)
    ensures lines == BoxLines(idx, s)
  {
    lines := [];
    var k := 0;
    while k < |s|
      invariant k <= |s| && lines == BoxLines(idx, s[..k])
    {
      BoxLinesSnoc(idx, s, k);
      lines := lines + [Line(Strip(s[k].box.text), Some(BoxRef(idx, s[k].pos)))];
      k := k + 1;
    }
    assert s[..k] == s;
  }

  lemma BoxLinesSnoc(idx: nat, s: seq<Numbered>, k: nat)
    requires k < |s|
    ensures BoxLines(idx, s[..k + 1]) == BoxLines(idx, s[..k]) + [BoxLine(idx, s[k])]
  {
    assert s[..k + 1] == s[..k] + [s[k]];
    BoxLinesAppend(idx, s[..k], [s[k]]);
  }

  lemma BoxLinesAppend(idx: nat, a: seq<Numbered>, b: seq<Numbered>)
    ensures BoxLines(idx, a + b) == BoxLines(idx, a) + BoxLines(idx, b)
  {
  }

  lemma FrameGroupsTake(p: PageResult, order: seq<Rect>, j: nat)
    requires j < |order|
    ensures Flatten(FrameGroups(p, order[..j + 1])) == Flatten(FrameGroups(p, order[..j])) + FrameGroup(p, order[j])
  {
    var g := FrameGroup(p, order[j]);
    var before := FrameGroups(p, order[..j]);
    var after := FrameGroups(p, order[..j + 1]);
    assert |after| == |before| + 1;
    forall k | 0 <= k < |after| ensures after[k] == (before + [g])[k] {
      assert order[..j + 1][k] == if k < j then order[..j][k] else order[j];
    }
    assert after == before + [g];
    FlattenSnoc(before, g);
  }

  /** The lines of the frames of `order`, frame by frame, each frame's boxes by column and top. */
  method EmitFrames(idx: nat, p: PageResult, order: seq<Rect>, frameDict: map<Rect, seq<Numbered>>)
    returns (lines: seq<Line>)
    requires forall f :: f in order ==> f in frameDict && frameDict[f] == Tagged(Numbering(p.boxes), MainTag(p.frames), f)
    ensures lines == BoxLines(idx, Flatten(FrameGroups(p, order)))
  {
    lines := [];
    var j := 0;
    while j < |order|
      invariant j <= |order| && lines == BoxLines(idx, Flatten(FrameGroups(p, order[..j])))
    {
      var group := SortBy(frameDict[order[j]], TolKey());
      var more := EmitBoxes(idx, group);
      FrameGroupsTake(p, order, j);
      BoxLinesAppend(idx, Flatten(FrameGroups(p, order[..j])), group);
      lines := lines + more;
      j := j + 1;
    }
    assert order[..j] == order;
  }

  /** The frames `on_finished` sorts are the keys of `frame_dict`, each mapped to its boxes. */
  lemma SortedKeysInDict(p: PageResult, keys: seq<Rect>, frameDict: map<Rect, seq<Numbered>>)
    requires keys == Keys(p.frames, FrameTag())
    requires forall f :: f in frameDict <==> f in keys
    requires forall f :: f in frameDict ==> frameDict[f] == Tagged(Numbering(p.boxes), MainTag(p.frames), f)
    ensures forall f :: f in FrameOrder(p.frames) ==>
              f in frameDict && frameDict[f] == Tagged(Numbering(p.boxes), MainTag(p.frames), f)
  {
    MangaOrderPermutation(keys, OverlapThreshold);
    forall f | f in FrameOrder(p.frames) ensures f in keys {
      assert f in multiset(FrameOrder(p.frames));
    }
  }

  /** The lines `on_finished` appends for one page. */
  method EmitPage(p: PageResult, idx: nat) returns (lines: seq<Line>)
    ensures lines == PageLines(p, idx)
  {
    var header := PageHeader(p.item, idx);
    if !HasImage(p.item) {
      return [Line(header, None)];
    }
    var keys, frameDict, unframed := AssignBoxes(p.boxes, p.frames);
    var sortedKeys := SortFramesMangaStyle(keys, 5);
    SortedKeysInDict(p, keys, frameDict);
    var framed := EmitFrames(idx, p, sortedKeys, frameDict);
    assert framed == BoxLines(idx, FramedOrder(p));
    assert unframed == Outside(p);
    var tail: seq<Line> := [];
    if unframed != [] {
      var rest := EmitBoxes(idx, SortBy(unframed, OutsideKey()));
      tail := [Line(UnframedLabel, None)] + rest;
    }
    lines := [Line(header, None)] + framed + tail;
  }

  /** The lines and the start indices of the first `k` pages. */
  ghost predicate BatchPrefix<T>(pages: seq<seq<T>>, k: nat, lines: seq<T>, starts: seq<nat>) {
    k <= |pages| && lines == Flatten(pages[..k]) && starts == Starts(pages)[..k]
  }

  /** Appending page `k` extends the lines by its lines and the starts by where it begins. */
  lemma BatchStep<T>(pages: seq<seq<T>>, k: nat, lines: seq<T>, starts: seq<nat>)
    requires k < |pages| && BatchPrefix(pages, k, lines, starts)
    ensures BatchPrefix(pages, k + 1, lines + pages[k], starts + [|lines|])
  {
    FlattenTake(pages, k);
    assert Starts(pages)[..k + 1] == Starts(pages)[..k] + [Starts(pages)[k]];
  }

  lemma BatchDone<T>(pages: seq<seq<T>>, lines: seq<T>, starts: seq<nat>)
    requires BatchPrefix(pages, |pages|, lines, starts)
    ensures lines == Flatten(pages) && starts == Starts(pages)
  {
    assert pages[..|pages|] == pages;
    assert Starts(pages)[..|pages|] == Starts(pages);
  }

  method EmitAll(results: seq<PageResult>) returns (lines: seq<Line>, starts: seq<nat>)
    ensures lines == AllLines(results) && starts == PageStarts(results)
  {
    ghost var pages := Pages(results);
    lines := [];
    starts := [];
    var idx := 0;
    assert BatchPrefix(pages, 0, lines, starts);
    while idx < |results|
      invariant idx <= |results| && BatchPrefix(pages, idx, lines, starts)
    {
      var page := EmitPage(results[idx], idx);
      assert page == pages[idx];
      BatchStep(pages, idx, lines, starts);
      lines, starts := lines + page, starts + [|lines|];
      idx := idx + 1;
    }
    BatchDone(pages, lines, starts);
  }

  /** The batch text panel's state: the texts, the page starts, the box links and the rows shown. */
  class BatchTextPanel {
    var allTextLines: seq<string>
    var pageIndices: seq<nat>
    var lineToBoxIdx: seq<Option<BoxRef>>
    var view: seq<ZebraRow>

    /** One link per line, and page starts that rise inside the lines. */
    ghost predicate Valid()
      reads this
    {
      |lineToBoxIdx| == |allTextLines| && StartsValid(|allTextLines|, pageIndices)
    }

    constructor ()
      ensures Valid()
      ensures allTextLines == [] && pageIndices == [] && lineToBoxIdx == [] && view == []
    {
      allTextLines := [];
      pageIndices := [];
      lineToBoxIdx := [];
      view := [];
    }

    /** `on_finished(results)`: rebuild the lines of the batch; the rows shown stay as they were. */
    method OnFinished(results: seq<PageResult>)
      modifies this
      ensures Valid()
      ensures allTextLines == Texts(AllLines(results)) && lineToBoxIdx == Links(AllLines(results))
      ensures pageIndices == PageStarts(results)
      ensures view == old(view)
    {
      var lines, starts := EmitAll(results);
      PageStartsValid(results);
      allTextLines, lineToBoxIdx, pageIndices := Texts(lines), Links(lines), starts;
    }

    /** `set_zebra_text(lines)`: the header row, then rows on alternating backgrounds. */
    method SetZebraText(lines: seq<string>)
      modifies this
      ensures view == ZebraRows(lines)
      ensures allTextLines == old(allTextLines) && pageIndices == old(pageIndices)
      ensures lineToBoxIdx == old(lineToBoxIdx)
    {
      var rows: seq<ZebraRow> := [];
      var zebraIdx := 0;
      var i := 0;
      while i < |lines|
        invariant i <= |lines| && rows == ZebraRows(lines)[..i]
        invariant i > 0 ==> zebraIdx == i - 1
      {
        if i == 0 {
          rows := rows + [HeaderRow(lines[i])];
          zebraIdx := 0;
        } else {
          var bg := if zebraIdx % 2 == 0 then "#444444" else "#121212";
          rows := rows + [BodyRow(lines[i], bg)];
          zebraIdx := zebraIdx + 1;
        }
        assert ZebraRows(lines)[..i + 1] == ZebraRows(lines)[..i] + [ZebraRows(lines)[i]];
        i := i + 1;
      }
      assert ZebraRows(lines)[..i] == ZebraRows(lines);
      view := rows;
    }

    /** `show_selected_page_text(pageIdx)`: show one page's lines, or clear the view. */
    method ShowSelectedPageText(pageIdx: int)
      requires Valid()
      modifies this
      ensures Valid()
      ensures view == match SelectedLines(allTextLines, pageIndices, pageIdx)
                      case None => []
                      case Some(page) => ZebraRows(page)
      ensures allTextLines == old(allTextLines) && pageIndices == old(pageIndices)
      ensures lineToBoxIdx == old(lineToBoxIdx)
    {
      if allTextLines == [] || pageIdx < 0 || pageIdx >= |pageIndices| {
        view := [];
        return;
      }
      var start := pageIndices[pageIdx];
      var end := if pageIdx + 1 < |pageIndices| then pageIndices[pageIdx + 1] else |allTextLines|;
      SetZebraText(allTextLines[start..end]);
    }
  }
}
