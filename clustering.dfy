/**
 * The three-pass clustering of detector text boxes into speech bubbles
 * (run.py:1484-1666): row banding by running mean of the vertical centre,
 * a left-to-right split of each band by gap and vertical shift, and a
 * pairwise merge of group bounding boxes repeated until nothing changes.
 *
 * Box indices refer to the detector list `boxes`; a group is a sequence of
 * indices. NumPy means and ratios are exact reals, `hypot` is compared on
 * squares, and the slider values are integer percentages.
 */
module Clustering {
  import opened Sorting
  import opened Geometry

  function RealAbs(r: real): real { if r >= 0.0 then r else -r }

  function Sum(xs: seq<int>): int {
    if xs == [] then 0 else Sum(xs[..|xs| - 1]) + xs[|xs| - 1]
  }

  /** `np.mean` of a non-empty list of integers. */
  function Mean(xs: seq<int>): real
    requires |xs| > 0
  {
    Sum(xs) as real / |xs| as real
  }

  /** `np.mean(box[:, 1])` of the four corner ordinates. */
  function YCenter(q: Quad): real {
    (q.y1 + q.y1 + q.y2 + q.y2) as real / 4.0
  }

  /** Sort key of the banding pass: the vertical centre, scaled by 4 to stay an integer. */
  function CenterKey(boxes: seq<Quad>): nat -> Key {
    (i: nat) => if i < |boxes| then Key(boxes[i].y1 + boxes[i].y1 + boxes[i].y2 + boxes[i].y2, 0) else Key(0, 0)
  }

  /** Sort key of the split pass: the left edge. */
  function LeftKey(boxes: seq<Quad>): nat -> Key {
    (i: nat) => if i < |boxes| then Key(XMin(boxes[i]), 0) else Key(0, 0)
  }

  predicate Bounded(s: seq<nat>, n: nat) {
    forall t :: 0 <= t < |s| ==> s[t] < n
  }

  /** Every group is non-empty and holds valid box indices. */
  predicate WellFormedGroups(boxes: seq<Quad>, groups: seq<seq<nat>>) {
    forall m :: 0 <= m < |groups| ==> |groups[m]| > 0 && Bounded(groups[m], |boxes|)
  }

  lemma BoundedPermutation(s: seq<nat>, t: seq<nat>, n: nat)
    requires multiset(s) == multiset(t) && Bounded(t, n)
    ensures Bounded(s, n)
  {
    forall k | 0 <= k < |s| ensures s[k] < n {
      assert s[k] in multiset(t);
      var j :| 0 <= j < |t| && t[j] == s[k];
    }
  }

  function Last(s: seq<nat>): nat
    requires |s| > 0
  {
    s[|s| - 1]
  }

  // ---------------------------------------------------------------------------
  // Pass 2: split_group_horizontally (run.py:1536-1572)
  // ---------------------------------------------------------------------------

  /**
   * The test that starts a new subgroup at `box`, the box after `last` in
   * left-to-right order: its gap to `last` exceeds `maxGap`, or the shift of
   * the vertical centres exceeds the taller height times `ratio`.
   */
  predicate StartsSubgroup(last: Quad, box: Quad, maxGap: real, ratio: real) {
    var gap := XMin(box) - XMax(last);
    var shift := RealAbs((YMin(box) + YMax(box)) as real / 2.0 - (YMin(last) + YMax(last)) as real / 2.0);
    var maxShift := Max(YMax(last) - YMin(last), YMax(box) - YMin(box)) as real * ratio;
    gap as real > maxGap || shift > maxShift
  }

  /** Each subgroup starts where the test holds against the last box of the subgroup before. */
  predicate BreaksBetween(boxes: seq<Quad>, subgroups: seq<seq<nat>>, maxGap: real, ratio: real)
    requires WellFormedGroups(boxes, subgroups)
  {
    forall m :: 0 < m < |subgroups| ==>
      StartsSubgroup(boxes[Last(subgroups[m - 1])], boxes[subgroups[m][0]], maxGap, ratio)
  }

  /** Inside a run of boxes, no box passes the test against the one before it. */
  predicate NoBreakWithin(boxes: seq<Quad>, run: seq<nat>, maxGap: real, ratio: real)
    requires Bounded(run, |boxes|)
  {
    forall t :: 0 < t < |run| ==> !StartsSubgroup(boxes[run[t - 1]], boxes[run[t]], maxGap, ratio)
  }

  predicate NoBreakWithinAll(boxes: seq<Quad>, subgroups: seq<seq<nat>>, maxGap: real, ratio: real)
    requires WellFormedGroups(boxes, subgroups)
  {
    forall m :: 0 <= m < |subgroups| ==> NoBreakWithin(boxes, subgroups[m], maxGap, ratio)
  }

  /** The state of the split loop after the first `k` boxes of `sorted`. */
  predicate SplitState(boxes: seq<Quad>, sorted: seq<nat>, k: nat, subgroups: seq<seq<nat>>, current: seq<nat>,
                       maxGap: real, ratio: real)
  {
    1 <= k <= |sorted| && Bounded(sorted, |boxes|) &&
    |current| > 0 && Last(current) == sorted[k - 1] && Bounded(current, |boxes|) &&
    Flatten(subgroups) + current == sorted[..k] &&
    WellFormedGroups(boxes, subgroups) &&
    BreaksBetween(boxes, subgroups, maxGap, ratio) &&
    (|subgroups| > 0 ==> StartsSubgroup(boxes[Last(subgroups[|subgroups| - 1])], boxes[current[0]], maxGap, ratio)) &&
    NoBreakWithinAll(boxes, subgroups, maxGap, ratio) &&
    NoBreakWithin(boxes, current, maxGap, ratio)
  }

  lemma SplitStart(boxes: seq<Quad>, sorted: seq<nat>, maxGap: real, ratio: real)
    requires |sorted| > 0 && Bounded(sorted, |boxes|)
    ensures SplitState(boxes, sorted, 1, [], [sorted[0]], maxGap, ratio)
  {
    assert sorted[..1] == [sorted[0]];
  }

  lemma SplitBreak(boxes: seq<Quad>, sorted: seq<nat>, k: nat, subgroups: seq<seq<nat>>, current: seq<nat>,
                   maxGap: real, ratio: real)
    requires SplitState(boxes, sorted, k, subgroups, current, maxGap, ratio) && k < |sorted|
    requires StartsSubgroup(boxes[sorted[k - 1]], boxes[sorted[k]], maxGap, ratio)
    ensures SplitState(boxes, sorted, k + 1, subgroups + [current], [sorted[k]], maxGap, ratio)
  {
    var s := subgroups + [current];
    FlattenSnoc(subgroups, current);
    assert sorted[..k + 1] == sorted[..k] + [sorted[k]];
    assert WellFormedGroups(boxes, s) by {
      forall m | 0 <= m < |s| ensures |s[m]| > 0 && Bounded(s[m], |boxes|) {
        if m < |subgroups| { assert s[m] == subgroups[m]; }
      }
    }
    assert BreaksBetween(boxes, s, maxGap, ratio) by {
      forall m | 0 < m < |s|
        ensures StartsSubgroup(boxes[Last(s[m - 1])], boxes[s[m][0]], maxGap, ratio)
      {
        if m < |subgroups| { assert s[m] == subgroups[m] && s[m - 1] == subgroups[m - 1]; }
      }
    }
    assert NoBreakWithinAll(boxes, s, maxGap, ratio) by {
      forall m | 0 <= m < |s| ensures NoBreakWithin(boxes, s[m], maxGap, ratio) {
        if m < |subgroups| { assert s[m] == subgroups[m]; }
      }
    }
  }

  lemma SplitJoin(boxes: seq<Quad>, sorted: seq<nat>, k: nat, subgroups: seq<seq<nat>>, current: seq<nat>,
                  maxGap: real, ratio: real)
    requires SplitState(boxes, sorted, k, subgroups, current, maxGap, ratio) && k < |sorted|
    requires !StartsSubgroup(boxes[sorted[k - 1]], boxes[sorted[k]], maxGap, ratio)
    ensures SplitState(boxes, sorted, k + 1, subgroups, current + [sorted[k]], maxGap, ratio)
  {
    var c := current + [sorted[k]];
    assert sorted[..k + 1] == sorted[..k] + [sorted[k]];
    assert Flatten(subgroups) + c == sorted[..k + 1];
    assert NoBreakWithin(boxes, c, maxGap, ratio) by {
      forall t | 0 < t < |c| ensures !StartsSubgroup(boxes[c[t - 1]], boxes[c[t]], maxGap, ratio) {
        if t < |current| { assert c[t - 1] == current[t - 1] && c[t] == current[t]; }
      }
    }
  }

  /**
   * The subgroups concatenate to the group sorted by left edge, none is
   * empty, and a subgroup starts exactly where `StartsSubgroup` holds
   * against the immediately preceding box.
   */
  method SplitGroupHorizontally(boxes: seq<Quad>, group: seq<nat>, maxGap: real, ratio: real)
    returns (subgroups: seq<seq<nat>>)
    requires |group| > 0 && Bounded(group, |boxes|)
    ensures Flatten(subgroups) == SortBy(group, LeftKey(boxes))
    ensures WellFormedGroups(boxes, subgroups)
    ensures BreaksBetween(boxes, subgroups, maxGap, ratio)
    ensures NoBreakWithinAll(boxes, subgroups, maxGap, ratio)
  {
    var sorted := SortBy(group, LeftKey(boxes));
    BoundedPermutation(sorted, group, |boxes|);
    subgroups := [];
    var current := [sorted[0]];
    SplitStart(boxes, sorted, maxGap, ratio);
    var k := 1;
    while k < |sorted|
      invariant SplitState(boxes, sorted, k, subgroups, current, maxGap, ratio)
    {
      var idx := sorted[k];
      if StartsSubgroup(boxes[sorted[k - 1]], boxes[idx], maxGap, ratio) {
        SplitBreak(boxes, sorted, k, subgroups, current, maxGap, ratio);
        subgroups := subgroups + [current];
        current := [idx];
      } else {
        SplitJoin(boxes, sorted, k, subgroups, current, maxGap, ratio);
        current := current + [idx];
      }
      k := k + 1;
    }
    SplitBreakFinal(boxes, sorted, subgroups, current, maxGap, ratio);
    subgroups := subgroups + [current];
  }

  lemma SplitBreakFinal(boxes: seq<Quad>, sorted: seq<nat>, subgroups: seq<seq<nat>>, current: seq<nat>,
                        maxGap: real, ratio: real)
    requires SplitState(boxes, sorted, |sorted|, subgroups, current, maxGap, ratio)
    ensures Flatten(subgroups + [current]) == sorted
    ensures WellFormedGroups(boxes, subgroups + [current])
    ensures BreaksBetween(boxes, subgroups + [current], maxGap, ratio)
    ensures NoBreakWithinAll(boxes, subgroups + [current], maxGap, ratio)
  {
    var s := subgroups + [current];
    FlattenSnoc(subgroups, current);
    assert sorted[..|sorted|] == sorted;
    assert WellFormedGroups(boxes, s) by {
      forall m | 0 <= m < |s| ensures |s[m]| > 0 && Bounded(s[m], |boxes|) {
        if m < |subgroups| { assert s[m] == subgroups[m]; }
      }
    }
    assert BreaksBetween(boxes, s, maxGap, ratio) by {
      forall m | 0 < m < |s|
        ensures StartsSubgroup(boxes[Last(s[m - 1])], boxes[s[m][0]], maxGap, ratio)
      {
        if m < |subgroups| { assert s[m] == subgroups[m] && s[m - 1] == subgroups[m - 1]; }
      }
    }
    assert NoBreakWithinAll(boxes, s, maxGap, ratio) by {
      forall m | 0 <= m < |s| ensures NoBreakWithin(boxes, s[m], maxGap, ratio) {
        if m < |subgroups| { assert s[m] == subgroups[m]; }
      }
    }
  }

  // ---------------------------------------------------------------------------
  // Pass 1: group_boxes_by_vertical_and_horizontal (run.py:1484-1534)
  // ---------------------------------------------------------------------------

  /**
   * The banding test of run.py:1518: the centre is within `maxVerticalGap` of
   * the band's running mean, and horizontally the box either starts at most
   * `maxHorizontalGap` after the band's right edge or overlaps it by more
   * than `-0.3 * maxHorizontalGap`.
   */
  predicate JoinsBand(yDiff: real, xGap: int, xOverlap: int, maxVerticalGap: real, maxHorizontalGap: real) {
    yDiff <= maxVerticalGap &&
    ((0.0 <= xGap as real <= maxHorizontalGap) || xOverlap as real > -maxHorizontalGap * 0.3)
  }

  /** Since the overlap is the negated gap, the horizontal clause is just `xGap <= maxHorizontalGap`. */
  lemma HorizontalClauseIsGapBound(xGap: int, xOverlap: int, maxHorizontalGap: real)
    requires xOverlap == -xGap && maxHorizontalGap >= 0.0
    ensures ((0.0 <= xGap as real <= maxHorizontalGap) || xOverlap as real > -maxHorizontalGap * 0.3)
            <==> xGap as real <= maxHorizontalGap
  {
  }

  /**
   * The banding loop's state after a prefix of `order`: the bands closed so
   * far, the open band, its running mean centre and its right edge.
   */
  datatype BandScan = BandScan(closed: seq<seq<nat>>, current: seq<nat>, yCenter: real, xMax: int)

  /**
   * One iteration of the banding loop (run.py:1514-1528): the box joins the
   * open band when `JoinsBand` holds against the running mean and right edge,
   * which then take it in; otherwise the open band is closed and the box
   * opens a new one.
   */
  function BandStep(boxes: seq<Quad>, s: BandScan, idx: nat, maxVerticalGap: real, maxHorizontalGap: real): BandScan
    requires idx < |boxes|
  {
    var b := boxes[idx];
    if Joins(b, s.yCenter, s.xMax, maxVerticalGap, maxHorizontalGap) then
      var c := s.current + [idx];
      BandScan(s.closed, c, RunningMean(s.yCenter, |c|, YCenter(b)), Max(s.xMax, XMax(b)))
    else
      BandScan(s.closed + [s.current], [idx], YCenter(b), XMax(b))
  }

  /** `(cur * (n - 1) + v) / n`: the running mean once the `n`-th value `v` is in. */
  function RunningMean(cur: real, n: nat, v: real): real
    requires n > 0
  {
    (cur * (n - 1) as real + v) / n as real
  }

  /** `JoinsBand` for box `b` against a band with running centre `yCenter` and right edge `xMax`. */
  predicate Joins(b: Quad, yCenter: real, xMax: int, maxVerticalGap: real, maxHorizontalGap: real) {
    JoinsBand(RealAbs(YCenter(b) - yCenter), XMin(b) - xMax, xMax - XMin(b), maxVerticalGap, maxHorizontalGap)
  }

  /** The state after the first `k` boxes of `order`; the first box opens the first band. */
  function ScanBands(boxes: seq<Quad>, order: seq<nat>, k: nat, maxVerticalGap: real, maxHorizontalGap: real): BandScan
    requires 1 <= k <= |order| && Bounded(order, |boxes|)
    decreases k
  {
    if k == 1 then BandScan([], [order[0]], YCenter(boxes[order[0]]), XMax(boxes[order[0]]))
    else BandStep(boxes, ScanBands(boxes, order, k - 1, maxVerticalGap, maxHorizontalGap), order[k - 1],
                  maxVerticalGap, maxHorizontalGap)
  }

  /** The bands of the whole order: the closed ones and the one left open (run.py:1530-1532). */
  function Bands(boxes: seq<Quad>, order: seq<nat>, maxVerticalGap: real, maxHorizontalGap: real): seq<seq<nat>>
    requires |order| > 0 && Bounded(order, |boxes|)
  {
    var s := ScanBands(boxes, order, |order|, maxVerticalGap, maxHorizontalGap);
    s.closed + [s.current]
  }

  /** The sum of the vertical centres of a band's boxes. */
  function CenterSum(boxes: seq<Quad>, g: seq<nat>): real
    requires Bounded(g, |boxes|)
  {
    if g == [] then 0.0 else CenterSum(boxes, g[..|g| - 1]) + YCenter(boxes[g[|g| - 1]])
  }

  /** The largest right edge of a band's boxes. */
  function BandRight(boxes: seq<Quad>, g: seq<nat>): int
    requires |g| > 0 && Bounded(g, |boxes|)
  {
    if |g| == 1 then XMax(boxes[g[0]]) else Max(BandRight(boxes, g[..|g| - 1]), XMax(boxes[g[|g| - 1]]))
  }

  /** Every band is non-empty, and the bands read one after another are `prefix`. */
  predicate Runs(closed: seq<seq<nat>>, current: seq<nat>, prefix: seq<nat>) {
    Flatten(closed) + current == prefix && |current| > 0 &&
    forall m :: 0 <= m < |closed| ==> |closed[m]| > 0
  }

  /** The running centre is the mean of the open band's centres, and the right edge its largest. */
  predicate Running(boxes: seq<Quad>, s: BandScan) {
    |s.current| > 0 && Bounded(s.current, |boxes|) &&
    s.yCenter == CenterSum(boxes, s.current) / |s.current| as real &&
    s.xMax == BandRight(boxes, s.current)
  }

  lemma RunsStep(boxes: seq<Quad>, p: BandScan, prefix: seq<nat>, idx: nat, maxVerticalGap: real, maxHorizontalGap: real)
    requires Runs(p.closed, p.current, prefix) && idx < |boxes|
    ensures var s := BandStep(boxes, p, idx, maxVerticalGap, maxHorizontalGap);
      Runs(s.closed, s.current, prefix + [idx])
  {
    if !Joins(boxes[idx], p.yCenter, p.xMax, maxVerticalGap, maxHorizontalGap) {
      var closed := p.closed + [p.current];
      FlattenSnoc(p.closed, p.current);
      assert forall m :: 0 <= m < |closed| ==> closed[m] == if m < |p.closed| then p.closed[m] else p.current;
    }
  }

  lemma RunningStep(boxes: seq<Quad>, p: BandScan, idx: nat, maxVerticalGap: real, maxHorizontalGap: real)
    requires Running(boxes, p) && idx < |boxes|
    ensures Running(boxes, BandStep(boxes, p, idx, maxVerticalGap, maxHorizontalGap))
  {
    if Joins(boxes[idx], p.yCenter, p.xMax, maxVerticalGap, maxHorizontalGap) {
      var c := p.current + [idx];
      assert c[..|c| - 1] == p.current;
      MeanStep(CenterSum(boxes, p.current), YCenter(boxes[idx]), p.yCenter, |c|);
    } else {
      assert [idx][..0] == [];
    }
  }

  /**
   * The scan cuts the prefix of the order into non-empty consecutive runs;
   * the running centre is the mean of the open band's centres and the
   * running right edge is the largest right edge in it.
   */
  lemma {:induction false} ScanBandsShape(boxes: seq<Quad>, order: seq<nat>, k: nat, maxVerticalGap: real, maxHorizontalGap: real)
    requires 1 <= k <= |order| && Bounded(order, |boxes|)
    ensures var s := ScanBands(boxes, order, k, maxVerticalGap, maxHorizontalGap);
      Runs(s.closed, s.current, order[..k]) && Running(boxes, s)
  {
    if k == 1 {
      assert order[..1] == [order[0]] && [order[0]][..0] == [];
    } else {
      ScanBandsShape(boxes, order, k - 1, maxVerticalGap, maxHorizontalGap);
      var p := ScanBands(boxes, order, k - 1, maxVerticalGap, maxHorizontalGap);
      assert order[..k] == order[..k - 1] + [order[k - 1]];
      RunsStep(boxes, p, order[..k - 1], order[k - 1], maxVerticalGap, maxHorizontalGap);
      RunningStep(boxes, p, order[k - 1], maxVerticalGap, maxHorizontalGap);
    }
  }

  /** Folding an `n`-th value into the running mean of `n - 1` values gives the mean of all `n`. */
  lemma MeanStep(sum: real, v: real, mean: real, n: nat)
    requires n > 1 && mean == sum / (n - 1) as real
    ensures RunningMean(mean, n, v) == (sum + v) / n as real
  {
    assert mean * (n - 1) as real == sum;
  }

  /** The bands are non-empty and, read one after another, are the order itself. */
  lemma BandsPartition(boxes: seq<Quad>, order: seq<nat>, maxVerticalGap: real, maxHorizontalGap: real)
    requires |order| > 0 && Bounded(order, |boxes|)
    ensures var bands := Bands(boxes, order, maxVerticalGap, maxHorizontalGap);
      Flatten(bands) == order && forall m :: 0 <= m < |bands| ==> |bands[m]| > 0
  {
    var s := ScanBands(boxes, order, |order|, maxVerticalGap, maxHorizontalGap);
    ScanBandsShape(boxes, order, |order|, maxVerticalGap, maxHorizontalGap);
    FlattenSnoc(s.closed, s.current);
    assert order[..|order|] == order;
    var bands := s.closed + [s.current];
    assert forall m :: 0 <= m < |bands| ==> bands[m] == if m < |s.closed| then s.closed[m] else s.current;
  }

  /** `split_group_horizontally(boxes, band, ...)` gave `subgroups`, as its contract states. */
  predicate SplitOf(boxes: seq<Quad>, band: seq<nat>, subgroups: seq<seq<nat>>, maxGap: real, ratio: real) {
    WellFormedGroups(boxes, subgroups) &&
    Flatten(subgroups) == SortBy(band, LeftKey(boxes)) &&
    BreaksBetween(boxes, subgroups, maxGap, ratio) &&
    NoBreakWithinAll(boxes, subgroups, maxGap, ratio)
  }

  /** `groups` is the split of each band in turn, the band's subgroups being `parts[m]`. */
  predicate SplitsOfBands(boxes: seq<Quad>, bands: seq<seq<nat>>, parts: seq<seq<seq<nat>>>, groups: seq<seq<nat>>,
                          maxGap: real, ratio: real)
  {
    |parts| == |bands| && groups == Flatten(parts) &&
    forall m :: 0 <= m < |bands| ==> SplitOf(boxes, bands[m], parts[m], maxGap, ratio)
  }

  /** Splitting bands one after another keeps every index, and every group is non-empty. */
  lemma {:induction false} SplitsOfBandsPartition(boxes: seq<Quad>, bands: seq<seq<nat>>, parts: seq<seq<seq<nat>>>,
                                                  maxGap: real, ratio: real)
    requires SplitsOfBands(boxes, bands, parts, Flatten(parts), maxGap, ratio)
    ensures WellFormedGroups(boxes, Flatten(parts))
    ensures multiset(Flatten(Flatten(parts))) == multiset(Flatten(bands))
  {
    if parts != [] {
      assert SplitsOfBands(boxes, bands[1..], parts[1..], Flatten(parts[1..]), maxGap, ratio) by {
        forall m | 0 <= m < |bands[1..]| ensures SplitOf(boxes, bands[1..][m], parts[1..][m], maxGap, ratio) {
          assert bands[1..][m] == bands[m + 1] && parts[1..][m] == parts[m + 1];
        }
      }
      SplitsOfBandsPartition(boxes, bands[1..], parts[1..], maxGap, ratio);
      FlattenAppend(parts[0], Flatten(parts[1..]));
      var g := Flatten(parts);
      assert g == parts[0] + Flatten(parts[1..]);
      assert SplitOf(boxes, bands[0], parts[0], maxGap, ratio);
      assert WellFormedGroups(boxes, g) by {
        forall m | 0 <= m < |g| ensures |g[m]| > 0 && Bounded(g[m], |boxes|) {
          if m < |parts[0]| { assert g[m] == parts[0][m]; } else { assert g[m] == Flatten(parts[1..])[m - |parts[0]|]; }
        }
      }
    }
  }

  /** The loop state of `BandAndSplit` after the first `k` boxes of `order`. */
  predicate BandLoop(boxes: seq<Quad>, order: seq<nat>, k: nat, maxVerticalGap: real, maxHorizontalGap: real, ratio: real,
                     bands: seq<seq<nat>>, current: seq<nat>, yCenter: real, xMax: int,
                     parts: seq<seq<seq<nat>>>, groups: seq<seq<nat>>)
  {
    1 <= k <= |order| && Bounded(order, |boxes|) &&
    ScanBands(boxes, order, k, maxVerticalGap, maxHorizontalGap) == BandScan(bands, current, yCenter, xMax) &&
    |current| > 0 && Bounded(current, |boxes|) &&
    SplitsOfBands(boxes, bands, parts, groups, maxHorizontalGap, ratio)
  }

  /** A box that joins the open band: the running mean and right edge take it in. */
  lemma BandLoopJoin(boxes: seq<Quad>, order: seq<nat>, k: nat, maxVerticalGap: real, maxHorizontalGap: real, ratio: real,
                     bands: seq<seq<nat>>, current: seq<nat>, yCenter: real, xMax: int,
                     parts: seq<seq<seq<nat>>>, groups: seq<seq<nat>>)
    requires BandLoop(boxes, order, k, maxVerticalGap, maxHorizontalGap, ratio, bands, current, yCenter, xMax, parts, groups)
    requires k < |order| && Joins(boxes[order[k]], yCenter, xMax, maxVerticalGap, maxHorizontalGap)
    ensures var b := boxes[order[k]]; var c := current + [order[k]];
      BandLoop(boxes, order, k + 1, maxVerticalGap, maxHorizontalGap, ratio, bands, c,
               RunningMean(yCenter, |c|, YCenter(b)), Max(xMax, XMax(b)), parts, groups)
  {
    assert ScanBands(boxes, order, k + 1, maxVerticalGap, maxHorizontalGap)
        == BandStep(boxes, BandScan(bands, current, yCenter, xMax), order[k], maxVerticalGap, maxHorizontalGap);
  }

  /** A box that fails the test: the open band is split and closed, and the box opens the next. */
  lemma BandLoopClose(boxes: seq<Quad>, order: seq<nat>, k: nat, maxVerticalGap: real, maxHorizontalGap: real, ratio: real,
                      bands: seq<seq<nat>>, current: seq<nat>, yCenter: real, xMax: int,
                      parts: seq<seq<seq<nat>>>, groups: seq<seq<nat>>, subgroups: seq<seq<nat>>)
    requires BandLoop(boxes, order, k, maxVerticalGap, maxHorizontalGap, ratio, bands, current, yCenter, xMax, parts, groups)
    requires k < |order| && !Joins(boxes[order[k]], yCenter, xMax, maxVerticalGap, maxHorizontalGap)
    requires SplitOf(boxes, current, subgroups, maxHorizontalGap, ratio)
    ensures var b := boxes[order[k]];
      BandLoop(boxes, order, k + 1, maxVerticalGap, maxHorizontalGap, ratio, bands + [current], [order[k]],
               YCenter(b), XMax(b), parts + [subgroups], groups + subgroups)
  {
    assert ScanBands(boxes, order, k + 1, maxVerticalGap, maxHorizontalGap)
        == BandStep(boxes, BandScan(bands, current, yCenter, xMax), order[k], maxVerticalGap, maxHorizontalGap);
    SplitsSnoc(boxes, bands, current, parts, groups, subgroups, maxHorizontalGap, ratio);
  }

  lemma SplitsSnoc(boxes: seq<Quad>, bands: seq<seq<nat>>, band: seq<nat>, parts: seq<seq<seq<nat>>>,
                   groups: seq<seq<nat>>, subgroups: seq<seq<nat>>, maxGap: real, ratio: real)
    requires SplitsOfBands(boxes, bands, parts, groups, maxGap, ratio)
    requires SplitOf(boxes, band, subgroups, maxGap, ratio)
    ensures SplitsOfBands(boxes, bands + [band], parts + [subgroups], groups + subgroups, maxGap, ratio)
  {
    FlattenSnoc(parts, subgroups);
    var b2, p2 := bands + [band], parts + [subgroups];
    forall m | 0 <= m < |b2| ensures SplitOf(boxes, b2[m], p2[m], maxGap, ratio) {
      if m < |bands| { assert b2[m] == bands[m] && p2[m] == parts[m]; }
    }
  }

  /** The last band is split and closed: the groups are the split of every band. */
  lemma BandLoopEnd(boxes: seq<Quad>, order: seq<nat>, maxVerticalGap: real, maxHorizontalGap: real, ratio: real,
                    bands: seq<seq<nat>>, current: seq<nat>, yCenter: real, xMax: int,
                    parts: seq<seq<seq<nat>>>, groups: seq<seq<nat>>, subgroups: seq<seq<nat>>)
    requires BandLoop(boxes, order, |order|, maxVerticalGap, maxHorizontalGap, ratio, bands, current, yCenter, xMax, parts, groups)
    requires SplitOf(boxes, current, subgroups, maxHorizontalGap, ratio)
    ensures BandedAndSplit(boxes, order, maxVerticalGap, maxHorizontalGap, ratio, parts + [subgroups], groups + subgroups)
  {
    SplitsSnoc(boxes, bands, current, parts, groups, subgroups, maxHorizontalGap, ratio);
  }

  /** The groups are the split of each band of `order`, one band after another. */
  predicate BandedAndSplit(boxes: seq<Quad>, order: seq<nat>, maxVerticalGap: real, maxHorizontalGap: real, ratio: real,
                           parts: seq<seq<seq<nat>>>, groups: seq<seq<nat>>)
  {
    |order| > 0 && Bounded(order, |boxes|) &&
    SplitsOfBands(boxes, Bands(boxes, order, maxVerticalGap, maxHorizontalGap), parts, groups, maxHorizontalGap, ratio)
  }

  /**
   * `subgroups = split_group_horizontally(...); groups.extend(subgroups)`:
   * close the current band.
   */
  method CloseBand(boxes: seq<Quad>, groups: seq<seq<nat>>, band: seq<nat>, maxGap: real, ratio: real)
    returns (newGroups: seq<seq<nat>>, ghost subgroups: seq<seq<nat>>)
    requires |band| > 0 && Bounded(band, |boxes|)
    ensures newGroups == groups + subgroups && SplitOf(boxes, band, subgroups, maxGap, ratio)
  {
    var split := SplitGroupHorizontally(boxes, band, maxGap, ratio);
    newGroups := groups + split;
    subgroups := split;
  }

  /** `avg_height * slider / 100`: the vertical banding bound. */
  function MaxVerticalGap(boxes: seq<Quad>, verticalGapPct: int): real
    requires |boxes| > 0
  {
    Mean(seq(|boxes|, i requires 0 <= i < |boxes| => YMax(boxes[i]) - YMin(boxes[i]))) * (verticalGapPct as real / 100.0)
  }

  /** `avg_width * slider / 100`: the horizontal banding and splitting bound. */
  function MaxHorizontalGap(boxes: seq<Quad>, horizontalGapPct: int): real
    requires |boxes| > 0
  {
    Mean(seq(|boxes|, i requires 0 <= i < |boxes| => XMax(boxes[i]) - XMin(boxes[i]))) * (horizontalGapPct as real / 100.0)
  }

  /** `slider / 100`: the vertical shift ratio of the split pass. */
  function ShiftRatio(shiftRatioPct: int): real {
    shiftRatioPct as real / 100.0
  }

  /** `ranges.sort(key=y_center)`: the box indices by vertical centre, ties in index order. */
  function CenterOrder(boxes: seq<Quad>): (r: seq<nat>)
    ensures multiset(r) == multiset(Range(|boxes|)) && |r| == |boxes| && Bounded(r, |boxes|)
    ensures SortedBy(r, CenterKey(boxes))
  {
    var r := SortBy(Range(|boxes|), CenterKey(boxes));
    BoundedPermutation(r, Range(|boxes|), |boxes|);
    SortBySorted(Range(|boxes|), CenterKey(boxes));
    r
  }

  /**
   * The banding pass, followed by the split of every band: no boxes give no
   * groups; otherwise the groups are the split of each band of the boxes in
   * centre order, one band after another, so they are non-empty and hold
   * every box index exactly once.
   */
  method GroupBoxesByVerticalAndHorizontal(boxes: seq<Quad>, verticalGapPct: int, horizontalGapPct: int, shiftRatioPct: int)
    returns (groups: seq<seq<nat>>, ghost parts: seq<seq<seq<nat>>>)
    ensures |boxes| == 0 ==> groups == []
    ensures |boxes| > 0 ==>
      BandedAndSplit(boxes, CenterOrder(boxes), MaxVerticalGap(boxes, verticalGapPct),
                     MaxHorizontalGap(boxes, horizontalGapPct), ShiftRatio(shiftRatioPct), parts, groups)
    ensures WellFormedGroups(boxes, groups)
    ensures multiset(Flatten(groups)) == multiset(Range(|boxes|))
  {
    if |boxes| == 0 {
      groups, parts := [], [];
    } else {
      groups, parts := BandAndSplit(boxes, CenterOrder(boxes), MaxVerticalGap(boxes, verticalGapPct),
                                    MaxHorizontalGap(boxes, horizontalGapPct), ShiftRatio(shiftRatioPct));
    }
  }

  /**
   * The banding loop over the boxes in `order` (run.py:1508-1532): the groups
   * are the split of each band of `Bands`, one band after another, so they
   * are non-empty and hold the indices of `order`.
   */
  method BandAndSplit(boxes: seq<Quad>, order: seq<nat>, maxVerticalGap: real, maxHorizontalGap: real, shiftRatio: real)
    returns (groups: seq<seq<nat>>, ghost parts: seq<seq<seq<nat>>>)
    requires |order| > 0 && Bounded(order, |boxes|)
    ensures BandedAndSplit(boxes, order, maxVerticalGap, maxHorizontalGap, shiftRatio, parts, groups)
    ensures WellFormedGroups(boxes, groups)
    ensures multiset(Flatten(groups)) == multiset(order)
  {
    var n := |order|;
    groups := [];
    parts := [];
    ghost var bands: seq<seq<nat>> := [];
    var current := [order[0]];
    var curYCenter := YCenter(boxes[order[0]]);
    var curXMax := XMax(boxes[order[0]]);
    var k := 1;
    while k < n
      invariant |order| == n
      invariant BandLoop(boxes, order, k, maxVerticalGap, maxHorizontalGap, shiftRatio, bands, current, curYCenter, curXMax, parts, groups)
    {
      var idx := order[k];
      var yDiff := RealAbs(YCenter(boxes[idx]) - curYCenter);
      var xGap := XMin(boxes[idx]) - curXMax;
      var xOverlap := curXMax - XMin(boxes[idx]);
      if JoinsBand(yDiff, xGap, xOverlap, maxVerticalGap, maxHorizontalGap) {
        BandLoopJoin(boxes, order, k, maxVerticalGap, maxHorizontalGap, shiftRatio, bands, current, curYCenter, curXMax, parts, groups);
        current := current + [idx];
        curYCenter := RunningMean(curYCenter, |current|, YCenter(boxes[idx]));
        curXMax := Max(curXMax, XMax(boxes[idx]));
      } else {
        ghost var sub;
        ghost var oldGroups := groups;
        groups, sub := CloseBand(boxes, groups, current, maxHorizontalGap, shiftRatio);
        BandLoopClose(boxes, order, k, maxVerticalGap, maxHorizontalGap, shiftRatio, bands, current, curYCenter, curXMax, parts, oldGroups, sub);
        bands, parts := bands + [current], parts + [sub];
        current := [idx];
        curYCenter := YCenter(boxes[idx]);
        curXMax := XMax(boxes[idx]);
      }
      k := k + 1;
    }
    ghost var sub;
    ghost var oldGroups := groups;
    groups, sub := CloseBand(boxes, groups, current, maxHorizontalGap, shiftRatio);
    BandLoopEnd(boxes, order, maxVerticalGap, maxHorizontalGap, shiftRatio, bands, current, curYCenter, curXMax, parts, oldGroups, sub);
    parts := parts + [sub];
    BandsPartition(boxes, order, maxVerticalGap, maxHorizontalGap);
    SplitsOfBandsPartition(boxes, Bands(boxes, order, maxVerticalGap, maxHorizontalGap), parts, maxHorizontalGap, shiftRatio);
  }

  // ---------------------------------------------------------------------------
  // Pass 3: merge_nested_groups (run.py:1574-1666)
  // ---------------------------------------------------------------------------

  function SeqMin(xs: seq<int>): (r: int)
    requires |xs| > 0
    ensures (forall k :: 0 <= k < |xs| ==> r <= xs[k]) && r in xs
  {
    if |xs| == 1 then xs[0] else Min(xs[0], SeqMin(xs[1..]))
  }

  function SeqMax(xs: seq<int>): (r: int)
    requires |xs| > 0
    ensures (forall k :: 0 <= k < |xs| ==> xs[k] <= r) && r in xs
  {
    if |xs| == 1 then xs[0] else Max(xs[0], SeqMax(xs[1..]))
  }

  /** One coordinate of every box of a group. */
  function Project(boxes: seq<Quad>, g: seq<nat>, f: Quad -> int): (r: seq<int>)
    requires Bounded(g, |boxes|)
    ensures |r| == |g| && forall k :: 0 <= k < |g| ==> r[k] == f(boxes[g[k]])
  {
    seq(|g|, k requires 0 <= k < |g| => f(boxes[g[k]]))
  }

  /**
   * `get_bbox_for_group`: `cv2.boundingRect` of all corner points of the
   * group's boxes, so the size is max - min + 1 on each axis.
   */
  function GroupBBox(boxes: seq<Quad>, g: seq<nat>): Rect
    requires |g| > 0 && Bounded(g, |boxes|)
  {
    var x := SeqMin(Project(boxes, g, XMin));
    var y := SeqMin(Project(boxes, g, YMin));
    var right := SeqMax(Project(boxes, g, XMax));
    var bottom := SeqMax(Project(boxes, g, YMax));
    assert x <= XMin(boxes[g[0]]) <= XMax(boxes[g[0]]) <= right;
    assert y <= YMin(boxes[g[0]]) <= YMax(boxes[g[0]]) <= bottom;
    Rect(x, y, right - x + 1, bottom - y + 1)
  }

  lemma ProjectSameValues(boxes: seq<Quad>, g1: seq<nat>, g2: seq<nat>, f: Quad -> int)
    requires Bounded(g1, |boxes|) && Bounded(g2, |boxes|)
    requires forall x :: x in g1 ==> x in g2
    ensures forall v :: v in Project(boxes, g1, f) ==> v in Project(boxes, g2, f)
  {
    var p1, p2 := Project(boxes, g1, f), Project(boxes, g2, f);
    forall v | v in p1 ensures v in p2 {
      var k :| 0 <= k < |p1| && p1[k] == v;
      assert g1[k] in g2;
      var k2 :| 0 <= k2 < |g2| && g2[k2] == g1[k];
      assert p2[k2] == v;
    }
  }

  lemma SameValuesSameExtremes(xs: seq<int>, ys: seq<int>)
    requires |xs| > 0 && |ys| > 0
    requires forall v :: v in xs ==> v in ys
    requires forall v :: v in ys ==> v in xs
    ensures SeqMin(xs) == SeqMin(ys) && SeqMax(xs) == SeqMax(ys)
  {
    var a, b := SeqMin(xs), SeqMin(ys);
    var ka :| 0 <= ka < |ys| && ys[ka] == a;
    var kb :| 0 <= kb < |xs| && xs[kb] == b;
    var c, d := SeqMax(xs), SeqMax(ys);
    var kc :| 0 <= kc < |ys| && ys[kc] == c;
    var kd :| 0 <= kd < |xs| && xs[kd] == d;
  }

  /** A group's bounding box depends only on which indices it holds. */
  lemma GroupBBoxSameElements(boxes: seq<Quad>, g1: seq<nat>, g2: seq<nat>)
    requires |g1| > 0 && Bounded(g1, |boxes|) && |g2| > 0 && Bounded(g2, |boxes|)
    requires forall x :: x in g1 <==> x in g2
    ensures GroupBBox(boxes, g1) == GroupBBox(boxes, g2)
  {
    ProjectSameValues(boxes, g1, g2, XMin);
    ProjectSameValues(boxes, g2, g1, XMin);
    ProjectSameValues(boxes, g1, g2, YMin);
    ProjectSameValues(boxes, g2, g1, YMin);
    ProjectSameValues(boxes, g1, g2, XMax);
    ProjectSameValues(boxes, g2, g1, XMax);
    ProjectSameValues(boxes, g1, g2, YMax);
    ProjectSameValues(boxes, g2, g1, YMax);
    SameValuesSameExtremes(Project(boxes, g1, XMin), Project(boxes, g2, XMin));
    SameValuesSameExtremes(Project(boxes, g1, YMin), Project(boxes, g2, YMin));
    SameValuesSameExtremes(Project(boxes, g1, XMax), Project(boxes, g2, XMax));
    SameValuesSameExtremes(Project(boxes, g1, YMax), Project(boxes, g2, YMax));
  }

  /**
   * The merge condition of run.py:1653-1663: with a positive tolerance, the
   * intersection covers at least `tolerance` of either box or the boxes are
   * at most `minBubbleGap` apart; otherwise only the distance counts.
   */
  predicate Mergeable(a: Rect, b: Rect, tolerance: real, minBubbleGap: int) {
    var inter := IntersectionArea(a, b) as real;
    var overlapAInB := if Area(a) != 0 then inter / Area(a) as real else 0.0;
    var overlapBInA := if Area(b) != 0 then inter / Area(b) as real else 0.0;
    var near := WithinGap(a, b, minBubbleGap);
    if tolerance > 0.0 then overlapAInB >= tolerance || overlapBInA >= tolerance || near
    else near
  }

  /** No two groups `i < j` meet the merge condition. */
  predicate NoMergeablePair(boxes: seq<Quad>, groups: seq<seq<nat>>, tolerance: real, minBubbleGap: int)
    requires WellFormedGroups(boxes, groups)
  {
    forall i, j :: 0 <= i < j < |groups| ==>
      !Mergeable(GroupBBox(boxes, groups[i]), GroupBBox(boxes, groups[j]), tolerance, minBubbleGap)
  }

  /**
   * The merge test of the source on two groups: `Mergeable` on their
   * bounding boxes (false for an ill-formed group, which the source cannot
   * give a bounding box).
   */
  function GroupsMergeable(boxes: seq<Quad>, tolerance: real, minBubbleGap: int): (seq<nat>, seq<nat>) -> bool {
    (ga: seq<nat>, gb: seq<nat>) =>
      |ga| > 0 && Bounded(ga, |boxes|) && |gb| > 0 && Bounded(gb, |boxes|) &&
      Mergeable(GroupBBox(boxes, ga), GroupBBox(boxes, gb), tolerance, minBubbleGap)
  }

  /** No two groups `i < j` meet the merge test `canMerge`. */
  predicate NoMergeablePairBy(groups: seq<seq<nat>>, canMerge: (seq<nat>, seq<nat>) -> bool) {
    forall i, j :: 0 <= i < j < |groups| ==> !canMerge(groups[i], groups[j])
  }

  /** The indices of the groups from `lo` on that are not yet `used`. */
  function Rest(groups: seq<seq<nat>>, used: seq<bool>, lo: nat): seq<nat>
    requires |used| == |groups| && lo <= |groups|
    decreases |groups| - lo
  {
    if lo == |groups| then [] else (if used[lo] then [] else groups[lo]) + Rest(groups, used, lo + 1)
  }

  lemma {:induction false} RestMark(groups: seq<seq<nat>>, used: seq<bool>, lo: nat, j: nat)
    requires |used| == |groups| && lo <= j < |groups| && !used[j]
    ensures multiset(Rest(groups, used, lo)) == multiset(groups[j]) + multiset(Rest(groups, used[j := true], lo))
    decreases |groups| - lo
  {
    if lo < j {
      RestMark(groups, used, lo + 1, j);
    } else {
      RestUnchangedAbove(groups, used, lo + 1, j);
    }
  }

  lemma {:induction false} RestUnchangedAbove(groups: seq<seq<nat>>, used: seq<bool>, lo: nat, j: nat)
    requires |used| == |groups| && j < lo <= |groups|
    ensures Rest(groups, used, lo) == Rest(groups, used[j := true], lo)
    decreases |groups| - lo
  {
    if lo < |groups| {
      var u := used[j := true];
      assert u[lo] == used[lo];
      RestUnchangedAbove(groups, used, lo + 1, j);
      assert Rest(groups, u, lo) == (if u[lo] then [] else groups[lo]) + Rest(groups, u, lo + 1);
    }
  }

  lemma {:induction false} RestNoneUsed(groups: seq<seq<nat>>, used: seq<bool>, lo: nat)
    requires |used| == |groups| && lo <= |groups|
    requires forall k :: 0 <= k < |used| ==> !used[k]
    ensures Rest(groups, used, lo) == Flatten(groups[lo..])
    decreases |groups| - lo
  {
    if lo < |groups| {
      RestNoneUsed(groups, used, lo + 1);
      assert groups[lo..][1..] == groups[lo + 1..];
    } else {
      assert groups[lo..] == [];
    }
  }

  function CountFalse(s: seq<bool>): (r: nat)
    ensures r <= |s|
    ensures r == |s| <==> !(true in s)
  {
    if s == [] then 0
    else
      assert s == s[..|s| - 1] + [s[|s| - 1]];
      CountFalse(s[..|s| - 1]) + (if s[|s| - 1] then 0 else 1)
  }

  /** Every pair `a < b` with `a < i` fails the merge test. */
  predicate PairsChecked(groups: seq<seq<nat>>, canMerge: (seq<nat>, seq<nat>) -> bool, i: nat) {
    forall a, b :: 0 <= a < i && a < b < |groups| ==>
      !canMerge(groups[a], groups[b])
  }

  /**
   * The bookkeeping of a merge pass before group `i`: the new groups and the
   * unabsorbed groups from `i` on hold every index exactly as often as the
   * old groups, and there is one new group per unabsorbed group so far.
   */
  predicate PassFrame(boxes: seq<Quad>, groups: seq<seq<nat>>, i: nat, used: seq<bool>, newGroups: seq<seq<nat>>) {
    i <= |groups| && |used| == |groups| &&
    WellFormedGroups(boxes, groups) && WellFormedGroups(boxes, newGroups) &&
    multiset(Flatten(newGroups)) + multiset(Rest(groups, used, i)) == multiset(Flatten(groups)) &&
    |newGroups| == CountFalse(used[..i])
  }

  /**
   * The state of a merge pass before group `i`: `changed` records a merge,
   * and while nothing merged the new groups are the old ones and every pair
   * starting before `i` was checked.
   */
  predicate PassState(boxes: seq<Quad>, groups: seq<seq<nat>>, canMerge: (seq<nat>, seq<nat>) -> bool,
                      i: nat, used: seq<bool>, newGroups: seq<seq<nat>>, changed: bool)
  {
    PassFrame(boxes, groups, i, used, newGroups) &&
    (changed <==> true in used) &&
    (!changed ==> newGroups == groups[..i] && PairsChecked(groups, canMerge, i))
  }

  /**
   * The bookkeeping of the inner loop where group `i` absorbs later groups:
   * marking a group moves its indices from the unabsorbed rest to `merged`.
   */
  predicate InnerFrame(boxes: seq<Quad>, groups: seq<seq<nat>>, i: nat, used0: seq<bool>, used: seq<bool>,
                       merged: seq<nat>, changed: bool)
  {
    i < |groups| && |used| == |groups| && |used0| == |groups| &&
    WellFormedGroups(boxes, groups) &&
    used[..i + 1] == used0[..i + 1] &&
    |merged| > 0 && Bounded(merged, |boxes|) &&
    multiset(merged) + multiset(Rest(groups, used, i + 1)) == multiset(groups[i]) + multiset(Rest(groups, used0, i + 1)) &&
    (changed <==> true in used) &&
    (!changed ==> merged == groups[i] && used == used0)
  }

  /** Every group after `i` and before `j` fails the merge test against group `i`. */
  predicate InnerChecked(groups: seq<seq<nat>>, canMerge: (seq<nat>, seq<nat>) -> bool, i: nat, j: nat)
    requires i < |groups| && j <= |groups|
  {
    forall b :: i < b < j ==> !canMerge(groups[i], groups[b])
  }

  predicate InnerState(boxes: seq<Quad>, groups: seq<seq<nat>>, canMerge: (seq<nat>, seq<nat>) -> bool,
                       i: nat, j: nat, used0: seq<bool>, used: seq<bool>, merged: seq<nat>, changed: bool)
  {
    i < j <= |groups| && InnerFrame(boxes, groups, i, used0, used, merged, changed) &&
    (!changed ==> InnerChecked(groups, canMerge, i, j))
  }

  lemma PassStart(boxes: seq<Quad>, groups: seq<seq<nat>>, canMerge: (seq<nat>, seq<nat>) -> bool, used: seq<bool>)
    requires WellFormedGroups(boxes, groups)
    requires |used| == |groups| && forall k :: 0 <= k < |used| ==> !used[k]
    ensures PassState(boxes, groups, canMerge, 0, used, [], false)
  {
    RestNoneUsed(groups, used, 0);
    assert groups[0..] == groups;
    assert used[..0] == [];
  }

  lemma PassSkip(boxes: seq<Quad>, groups: seq<seq<nat>>, canMerge: (seq<nat>, seq<nat>) -> bool,
                 i: nat, used: seq<bool>, newGroups: seq<seq<nat>>, changed: bool)
    requires PassState(boxes, groups, canMerge, i, used, newGroups, changed)
    requires i < |groups| && used[i]
    ensures PassState(boxes, groups, canMerge, i + 1, used, newGroups, changed)
  {
    assert used[..i + 1] == used[..i] + [used[i]];
    assert changed;
  }

  lemma InnerStart(boxes: seq<Quad>, groups: seq<seq<nat>>, canMerge: (seq<nat>, seq<nat>) -> bool,
                   i: nat, used: seq<bool>, newGroups: seq<seq<nat>>, changed: bool)
    requires PassState(boxes, groups, canMerge, i, used, newGroups, changed)
    requires i < |groups| && !used[i]
    ensures InnerState(boxes, groups, canMerge, i, i + 1, used, used, groups[i], changed)
  {
  }

  lemma InnerMerge(boxes: seq<Quad>, groups: seq<seq<nat>>, canMerge: (seq<nat>, seq<nat>) -> bool,
                   i: nat, j: nat, used0: seq<bool>, used: seq<bool>, merged: seq<nat>, changed: bool)
    requires InnerState(boxes, groups, canMerge, i, j, used0, used, merged, changed)
    requires j < |groups| && !used[j]
    ensures InnerState(boxes, groups, canMerge, i, j + 1, used0, used[j := true], merged + groups[j], true)
  {
    InnerMarkFrame(boxes, groups, i, j, used0, used, merged, changed);
  }

  lemma InnerMarkFrame(boxes: seq<Quad>, groups: seq<seq<nat>>, i: nat, j: nat, used0: seq<bool>, used: seq<bool>,
                       merged: seq<nat>, changed: bool)
    requires InnerFrame(boxes, groups, i, used0, used, merged, changed)
    requires i < j < |groups| && !used[j]
    ensures InnerFrame(boxes, groups, i, used0, used[j := true], merged + groups[j], true)
  {
    RestMark(groups, used, i + 1, j);
    assert used[j := true][..i + 1] == used[..i + 1];
    assert used[j := true][j];
    BoundedConcat(merged, groups[j], |boxes|);
  }

  lemma BoundedConcat(s: seq<nat>, t: seq<nat>, n: nat)
    requires Bounded(s, n) && Bounded(t, n)
    ensures Bounded(s + t, n)
  {
    var m := s + t;
    forall k | 0 <= k < |m| ensures m[k] < n {
      if k >= |s| { assert m[k] == t[k - |s|]; }
    }
  }

  lemma InnerKeep(boxes: seq<Quad>, groups: seq<seq<nat>>, canMerge: (seq<nat>, seq<nat>) -> bool,
                  i: nat, j: nat, used0: seq<bool>, used: seq<bool>, merged: seq<nat>, changed: bool)
    requires InnerState(boxes, groups, canMerge, i, j, used0, used, merged, changed)
    requires j < |groups| && (used[j] || !canMerge(groups[i], groups[j]))
    ensures InnerState(boxes, groups, canMerge, i, j + 1, used0, used, merged, changed)
  {
    if !changed {
      assert !used[j] by {
        assert used[j] in used;
      }
      assert InnerChecked(groups, canMerge, i, j + 1) by {
        forall b | i < b < j + 1 ensures !canMerge(groups[i], groups[b]) {
          if b < j {
            assert InnerChecked(groups, canMerge, i, j);
          }
        }
      }
    }
  }

  lemma PassClose(boxes: seq<Quad>, groups: seq<seq<nat>>, canMerge: (seq<nat>, seq<nat>) -> bool,
                  i: nat, used0: seq<bool>, used: seq<bool>, newGroups: seq<seq<nat>>, merged: seq<nat>,
                  changed0: bool, changed: bool)
    requires PassState(boxes, groups, canMerge, i, used0, newGroups, changed0)
    requires i < |groups| && !used0[i]
    requires InnerState(boxes, groups, canMerge, i, |groups|, used0, used, merged, changed)
    ensures PassState(boxes, groups, canMerge, i + 1, used, newGroups + [merged], changed)
  {
    PassCloseFrame(boxes, groups, i, used0, used, newGroups, merged, changed);
    if !changed {
      assert used == used0 && merged == groups[i] && !changed0;
      PassCloseUnchanged(groups, canMerge, i, newGroups, merged);
    }
  }

  /** A pass that has merged nothing up to and with group `i` has kept the groups and checked their pairs. */
  lemma PassCloseUnchanged(groups: seq<seq<nat>>, canMerge: (seq<nat>, seq<nat>) -> bool, i: nat,
                           newGroups: seq<seq<nat>>, merged: seq<nat>)
    requires i < |groups| && newGroups == groups[..i] && merged == groups[i]
    requires PairsChecked(groups, canMerge, i) && InnerChecked(groups, canMerge, i, |groups|)
    ensures newGroups + [merged] == groups[..i + 1] && PairsChecked(groups, canMerge, i + 1)
  {
    PairsCheckedNext(groups, canMerge, i);
    assert groups[..i + 1] == groups[..i] + [groups[i]];
  }

  lemma PairsCheckedNext(groups: seq<seq<nat>>, canMerge: (seq<nat>, seq<nat>) -> bool, i: nat)
    requires i < |groups| && PairsChecked(groups, canMerge, i) && InnerChecked(groups, canMerge, i, |groups|)
    ensures PairsChecked(groups, canMerge, i + 1)
  {
    forall a, b | 0 <= a < i + 1 && a < b < |groups| ensures !canMerge(groups[a], groups[b]) {
      if a == i {
        assert InnerChecked(groups, canMerge, i, |groups|);
      }
    }
  }

  lemma PassCloseFrame(boxes: seq<Quad>, groups: seq<seq<nat>>, i: nat, used0: seq<bool>, used: seq<bool>,
                       newGroups: seq<seq<nat>>, merged: seq<nat>, changed: bool)
    requires PassFrame(boxes, groups, i, used0, newGroups)
    requires i < |groups| && !used0[i]
    requires InnerFrame(boxes, groups, i, used0, used, merged, changed)
    ensures PassFrame(boxes, groups, i + 1, used, newGroups + [merged])
  {
    WellFormedSnoc(boxes, newGroups, merged);
    FlattenSnoc(newGroups, merged);
    CountAfterUnused(used0, used, i);
  }

  lemma WellFormedSnoc(boxes: seq<Quad>, groups: seq<seq<nat>>, g: seq<nat>)
    requires WellFormedGroups(boxes, groups) && |g| > 0 && Bounded(g, |boxes|)
    ensures WellFormedGroups(boxes, groups + [g])
  {
    var gs := groups + [g];
    forall m | 0 <= m < |gs| ensures |gs[m]| > 0 && Bounded(gs[m], |boxes|) {
      if m < |groups| { assert gs[m] == groups[m]; }
    }
  }

  /** Agreeing flags up to an unset flag `i`: one more unabsorbed group. */
  lemma CountAfterUnused(used0: seq<bool>, used: seq<bool>, i: nat)
    requires i < |used0| && i < |used| && used[..i + 1] == used0[..i + 1] && !used0[i]
    ensures CountFalse(used[..i + 1]) == CountFalse(used0[..i]) + 1
  {
    assert used[..i + 1][..i] == used0[..i];
    assert used[..i + 1][i] == false;
  }

  lemma PassEnd(boxes: seq<Quad>, groups: seq<seq<nat>>, canMerge: (seq<nat>, seq<nat>) -> bool,
                used: seq<bool>, newGroups: seq<seq<nat>>, changed: bool)
    requires PassState(boxes, groups, canMerge, |groups|, used, newGroups, changed)
    ensures WellFormedGroups(boxes, newGroups)
    ensures multiset(Flatten(newGroups)) == multiset(Flatten(groups))
    ensures changed ==> |newGroups| < |groups|
    ensures !changed ==> newGroups == groups && NoMergeablePairBy(groups, canMerge)
  {
    assert used[..|groups|] == used;
    assert groups[..|groups|] == groups;
    if !changed {
      assert PairsChecked(groups, canMerge, |groups|);
    }
  }

  /** Group `i` with indices `merged` after the later groups from `j` on: the flags and whether anything merged. */
  datatype Absorbed = Absorbed(merged: seq<nat>, used: seq<bool>, changed: bool)

  /**
   * The inner loop of run.py:1642-1663: group `i` absorbs every later group
   * from `j` on that is not yet absorbed and passes the test against group
   * `i` as it was at the start of the loop.
   */
  function Absorb(groups: seq<seq<nat>>, canMerge: (seq<nat>, seq<nat>) -> bool,
                  i: nat, j: nat, used: seq<bool>, merged: seq<nat>, changed: bool): (r: Absorbed)
    requires i < |groups| && j <= |groups| && |used| == |groups|
    ensures |r.used| == |groups|
    decreases |groups| - j
  {
    if j == |groups| then Absorbed(merged, used, changed)
    else if !used[j] && canMerge(groups[i], groups[j]) then
      Absorb(groups, canMerge, i, j + 1, used[j := true], merged + groups[j], true)
    else Absorb(groups, canMerge, i, j + 1, used, merged, changed)
  }

  /** A merge pass from group `i` on: the new groups, the absorbed flags and whether anything merged. */
  datatype Scanned = Scanned(newGroups: seq<seq<nat>>, used: seq<bool>, changed: bool)

  /** The outer loop of run.py:1636-1664 from group `i` on: an absorbed group is skipped, any other absorbs later groups and is kept. */
  function PassFrom(groups: seq<seq<nat>>, canMerge: (seq<nat>, seq<nat>) -> bool,
                    i: nat, used: seq<bool>, newGroups: seq<seq<nat>>, changed: bool): Scanned
    requires i <= |groups| && |used| == |groups|
    decreases |groups| - i
  {
    if i == |groups| then Scanned(newGroups, used, changed)
    else if used[i] then PassFrom(groups, canMerge, i + 1, used, newGroups, changed)
    else
      var a := Absorb(groups, canMerge, i, i + 1, used, groups[i], changed);
      PassFrom(groups, canMerge, i + 1, a.used, newGroups + [a.merged], a.changed)
  }

  /** `[False] * len(groups)`. */
  function NoneUsed(n: nat): (r: seq<bool>)
    ensures |r| == n && forall k :: 0 <= k < n ==> !r[k]
  {
    seq(n, _ => false)
  }

  /** One pass of the `while changed` loop: nothing absorbed, no new groups and no merge yet. */
  function Pass(groups: seq<seq<nat>>, canMerge: (seq<nat>, seq<nat>) -> bool): Scanned {
    PassFrom(groups, canMerge, 0, NoneUsed(|groups|), [], false)
  }

  /** The inner loop keeps its bookkeeping to the last group. */
  lemma {:induction false} AbsorbState(boxes: seq<Quad>, groups: seq<seq<nat>>, canMerge: (seq<nat>, seq<nat>) -> bool,
                                       i: nat, j: nat, used0: seq<bool>, used: seq<bool>, merged: seq<nat>, changed: bool)
    requires InnerState(boxes, groups, canMerge, i, j, used0, used, merged, changed)
    ensures var a := Absorb(groups, canMerge, i, j, used, merged, changed);
            InnerState(boxes, groups, canMerge, i, |groups|, used0, a.used, a.merged, a.changed)
    decreases |groups| - j, 1
  {
    if j < |groups| {
      if !used[j] && canMerge(groups[i], groups[j]) {
        AbsorbMergeState(boxes, groups, canMerge, i, j, used0, used, merged, changed);
      } else {
        AbsorbKeepState(boxes, groups, canMerge, i, j, used0, used, merged, changed);
      }
    }
  }

  lemma {:induction false} AbsorbMergeState(boxes: seq<Quad>, groups: seq<seq<nat>>, canMerge: (seq<nat>, seq<nat>) -> bool,
                                            i: nat, j: nat, used0: seq<bool>, used: seq<bool>, merged: seq<nat>, changed: bool)
    requires InnerState(boxes, groups, canMerge, i, j, used0, used, merged, changed)
    requires j < |groups| && !used[j] && canMerge(groups[i], groups[j])
    ensures var a := Absorb(groups, canMerge, i, j, used, merged, changed);
            InnerState(boxes, groups, canMerge, i, |groups|, used0, a.used, a.merged, a.changed)
    decreases |groups| - j, 0
  {
    assert Absorb(groups, canMerge, i, j, used, merged, changed) ==
           Absorb(groups, canMerge, i, j + 1, used[j := true], merged + groups[j], true);
    InnerMerge(boxes, groups, canMerge, i, j, used0, used, merged, changed);
    AbsorbState(boxes, groups, canMerge, i, j + 1, used0, used[j := true], merged + groups[j], true);
  }

  lemma {:induction false} AbsorbKeepState(boxes: seq<Quad>, groups: seq<seq<nat>>, canMerge: (seq<nat>, seq<nat>) -> bool,
                                           i: nat, j: nat, used0: seq<bool>, used: seq<bool>, merged: seq<nat>, changed: bool)
    requires InnerState(boxes, groups, canMerge, i, j, used0, used, merged, changed)
    requires j < |groups| && (used[j] || !canMerge(groups[i], groups[j]))
    ensures var a := Absorb(groups, canMerge, i, j, used, merged, changed);
            InnerState(boxes, groups, canMerge, i, |groups|, used0, a.used, a.merged, a.changed)
    decreases |groups| - j, 0
  {
    assert Absorb(groups, canMerge, i, j, used, merged, changed) == Absorb(groups, canMerge, i, j + 1, used, merged, changed);
    InnerKeep(boxes, groups, canMerge, i, j, used0, used, merged, changed);
    AbsorbState(boxes, groups, canMerge, i, j + 1, used0, used, merged, changed);
  }

  /** The outer loop keeps its bookkeeping to the end of the pass. */
  lemma {:induction false} PassFromState(boxes: seq<Quad>, groups: seq<seq<nat>>, canMerge: (seq<nat>, seq<nat>) -> bool,
                                         i: nat, used: seq<bool>, newGroups: seq<seq<nat>>, changed: bool)
    requires PassState(boxes, groups, canMerge, i, used, newGroups, changed)
    ensures var s := PassFrom(groups, canMerge, i, used, newGroups, changed);
            PassState(boxes, groups, canMerge, |groups|, s.used, s.newGroups, s.changed)
    decreases |groups| - i, 1
  {
    if i < |groups| {
      if used[i] {
        PassFromSkip(boxes, groups, canMerge, i, used, newGroups, changed);
      } else {
        PassFromAbsorb(boxes, groups, canMerge, i, used, newGroups, changed);
      }
    }
  }

  lemma {:induction false} PassFromSkip(boxes: seq<Quad>, groups: seq<seq<nat>>, canMerge: (seq<nat>, seq<nat>) -> bool,
                                        i: nat, used: seq<bool>, newGroups: seq<seq<nat>>, changed: bool)
    requires PassState(boxes, groups, canMerge, i, used, newGroups, changed)
    requires i < |groups| && used[i]
    ensures var s := PassFrom(groups, canMerge, i, used, newGroups, changed);
            PassState(boxes, groups, canMerge, |groups|, s.used, s.newGroups, s.changed)
    decreases |groups| - i, 0
  {
    assert PassFrom(groups, canMerge, i, used, newGroups, changed) == PassFrom(groups, canMerge, i + 1, used, newGroups, changed);
    PassSkip(boxes, groups, canMerge, i, used, newGroups, changed);
    PassFromState(boxes, groups, canMerge, i + 1, used, newGroups, changed);
  }

  lemma {:induction false} PassFromAbsorb(boxes: seq<Quad>, groups: seq<seq<nat>>, canMerge: (seq<nat>, seq<nat>) -> bool,
                                          i: nat, used: seq<bool>, newGroups: seq<seq<nat>>, changed: bool)
    requires PassState(boxes, groups, canMerge, i, used, newGroups, changed)
    requires i < |groups| && !used[i]
    ensures var s := PassFrom(groups, canMerge, i, used, newGroups, changed);
            PassState(boxes, groups, canMerge, |groups|, s.used, s.newGroups, s.changed)
    decreases |groups| - i, 0
  {
    var a := Absorb(groups, canMerge, i, i + 1, used, groups[i], changed);
    assert PassFrom(groups, canMerge, i, used, newGroups, changed) ==
           PassFrom(groups, canMerge, i + 1, a.used, newGroups + [a.merged], a.changed);
    PassAbsorbState(boxes, groups, canMerge, i, used, newGroups, changed);
    PassFromState(boxes, groups, canMerge, i + 1, a.used, newGroups + [a.merged], a.changed);
  }

  /** A group that is not absorbed keeps the bookkeeping once it has absorbed the later groups. */
  lemma PassAbsorbState(boxes: seq<Quad>, groups: seq<seq<nat>>, canMerge: (seq<nat>, seq<nat>) -> bool,
                        i: nat, used: seq<bool>, newGroups: seq<seq<nat>>, changed: bool)
    requires PassState(boxes, groups, canMerge, i, used, newGroups, changed)
    requires i < |groups| && !used[i]
    ensures var a := Absorb(groups, canMerge, i, i + 1, used, groups[i], changed);
            PassState(boxes, groups, canMerge, i + 1, a.used, newGroups + [a.merged], a.changed)
  {
    InnerStart(boxes, groups, canMerge, i, used, newGroups, changed);
    AbsorbState(boxes, groups, canMerge, i, i + 1, used, used, groups[i], changed);
    var a := Absorb(groups, canMerge, i, i + 1, used, groups[i], changed);
    PassClose(boxes, groups, canMerge, i, used, a.used, newGroups, a.merged, changed, a.changed);
  }

  /**
   * A pass keeps the indices; a pass that merges leaves fewer groups; a pass
   * that merges nothing leaves the groups as they were, and then no pair of
   * them passes the test.
   */
  lemma PassProperties(boxes: seq<Quad>, groups: seq<seq<nat>>, canMerge: (seq<nat>, seq<nat>) -> bool)
    requires WellFormedGroups(boxes, groups)
    ensures var p := Pass(groups, canMerge);
            WellFormedGroups(boxes, p.newGroups) &&
            multiset(Flatten(p.newGroups)) == multiset(Flatten(groups)) &&
            (p.changed ==> |p.newGroups| < |groups|) &&
            (!p.changed ==> p.newGroups == groups && NoMergeablePairBy(groups, canMerge))
  {
    PassStart(boxes, groups, canMerge, NoneUsed(|groups|));
    PassFromState(boxes, groups, canMerge, 0, NoneUsed(|groups|), [], false);
    var p := Pass(groups, canMerge);
    PassEnd(boxes, groups, canMerge, p.used, p.newGroups, p.changed);
  }

  /** Group `i` absorbs nothing when no later group passes the test against it. */
  lemma {:induction false} AbsorbNothing(groups: seq<seq<nat>>, canMerge: (seq<nat>, seq<nat>) -> bool,
                                         i: nat, j: nat, used: seq<bool>, merged: seq<nat>, changed: bool)
    requires i < |groups| && j <= |groups| && |used| == |groups|
    requires forall b :: j <= b < |groups| ==> !canMerge(groups[i], groups[b])
    ensures Absorb(groups, canMerge, i, j, used, merged, changed) == Absorbed(merged, used, changed)
    decreases |groups| - j
  {
    if j < |groups| {
      AbsorbNothing(groups, canMerge, i, j + 1, used, merged, changed);
    }
  }

  /** Without a pair that passes the test, the pass keeps every group as it is. */
  lemma {:induction false} PassFromNothing(groups: seq<seq<nat>>, canMerge: (seq<nat>, seq<nat>) -> bool, i: nat)
    requires i <= |groups| && NoMergeablePairBy(groups, canMerge)
    ensures PassFrom(groups, canMerge, i, NoneUsed(|groups|), groups[..i], false) == Scanned(groups, NoneUsed(|groups|), false)
    decreases |groups| - i
  {
    if i < |groups| {
      AbsorbNothing(groups, canMerge, i, i + 1, NoneUsed(|groups|), groups[i], false);
      assert groups[..i] + [groups[i]] == groups[..i + 1];
      PassFromNothing(groups, canMerge, i + 1);
    } else {
      assert groups[..i] == groups;
    }
  }

  /** A pass merges exactly when some pair of groups passes the test; otherwise it returns the groups unchanged. */
  lemma PassChangedIff(boxes: seq<Quad>, groups: seq<seq<nat>>, canMerge: (seq<nat>, seq<nat>) -> bool)
    requires WellFormedGroups(boxes, groups)
    ensures Pass(groups, canMerge).changed <==> !NoMergeablePairBy(groups, canMerge)
    ensures NoMergeablePairBy(groups, canMerge) ==> Pass(groups, canMerge).newGroups == groups
  {
    PassProperties(boxes, groups, canMerge);
    if NoMergeablePairBy(groups, canMerge) {
      assert groups[..0] == [];
      PassFromNothing(groups, canMerge, 0);
    }
  }

  /** Two groups that pass the test become one group: the first, then the second. */
  lemma PassMergesPair(ga: seq<nat>, gb: seq<nat>, canMerge: (seq<nat>, seq<nat>) -> bool)
    requires canMerge(ga, gb)
    ensures Pass([ga, gb], canMerge) == Scanned([ga + gb], [false, true], true)
  {
    var groups := [ga, gb];
    var none := NoneUsed(2);
    assert none == [false, false];
    assert none[1 := true] == [false, true];
    assert Absorb(groups, canMerge, 0, 1, none, ga, false) == Absorbed(ga + gb, [false, true], true);
    assert PassFrom(groups, canMerge, 1, [false, true], [ga + gb], true) == Scanned([ga + gb], [false, true], true);
    assert [] + [ga + gb] == [ga + gb];
  }

  /**
   * The groups once merge passes have run until one merges nothing: they
   * keep the indices, are no more, and no pair of them passes the test.
   */
  function MergeFix(boxes: seq<Quad>, groups: seq<seq<nat>>, canMerge: (seq<nat>, seq<nat>) -> bool): (r: seq<seq<nat>>)
    requires WellFormedGroups(boxes, groups)
    ensures WellFormedGroups(boxes, r) && |r| <= |groups|
    ensures multiset(Flatten(r)) == multiset(Flatten(groups))
    ensures NoMergeablePairBy(r, canMerge)
    decreases |groups|
  {
    PassProperties(boxes, groups, canMerge);
    var p := Pass(groups, canMerge);
    if p.changed then MergeFix(boxes, p.newGroups, canMerge) else groups
  }

  /** Groups no pair of which passes the test are already merged. */
  lemma MergeFixIdle(boxes: seq<Quad>, groups: seq<seq<nat>>, canMerge: (seq<nat>, seq<nat>) -> bool)
    requires WellFormedGroups(boxes, groups) && NoMergeablePairBy(groups, canMerge)
    ensures MergeFix(boxes, groups, canMerge) == groups
  {
    PassChangedIff(boxes, groups, canMerge);
  }

  /**
   * One pass of the `while changed` loop, for a merge test `canMerge` on two
   * groups. Every group not yet absorbed absorbs each later unabsorbed group
   * that passes the test against the first group as it was at the start of
   * the pass (the source computes `bbox_a` once, before absorbing). A pass that merges leaves
   * fewer groups; a pass that does not leaves them as they were, and then no
   * pair can merge.
   */
  method AbsorbLater(boxes: seq<Quad>, groups: seq<seq<nat>>, canMerge: (seq<nat>, seq<nat>) -> bool,
                     i: nat, used0: seq<bool>, changed0: bool, ghost newGroups: seq<seq<nat>>)
    returns (merged: seq<nat>, used: seq<bool>, changed: bool)
    requires PassState(boxes, groups, canMerge, i, used0, newGroups, changed0)
    requires i < |groups| && !used0[i]
    ensures PassState(boxes, groups, canMerge, i + 1, used, newGroups + [merged], changed)
    ensures Absorbed(merged, used, changed) == Absorb(groups, canMerge, i, i + 1, used0, groups[i], changed0)
  {
    var groupA := groups[i];
    merged := groupA;
    used, changed := used0, changed0;
    InnerStart(boxes, groups, canMerge, i, used, newGroups, changed);
    var j := i + 1;
    while j < |groups|
      invariant InnerState(boxes, groups, canMerge, i, j, used0, used, merged, changed)
      invariant Absorb(groups, canMerge, i, j, used, merged, changed) == Absorb(groups, canMerge, i, i + 1, used0, groups[i], changed0)
    {
      if !used[j] && canMerge(groupA, groups[j]) {
        InnerMerge(boxes, groups, canMerge, i, j, used0, used, merged, changed);
        merged := merged + groups[j];
        used := used[j := true];
        changed := true;
      } else {
        InnerKeep(boxes, groups, canMerge, i, j, used0, used, merged, changed);
      }
      j := j + 1;
    }
    PassClose(boxes, groups, canMerge, i, used0, used, newGroups, merged, changed0, changed);
  }

  /** The body of the outer loop for group `i`: skip it if absorbed, else let it absorb later groups. */
  method PassStep(boxes: seq<Quad>, groups: seq<seq<nat>>, canMerge: (seq<nat>, seq<nat>) -> bool,
                  i: nat, used: seq<bool>, newGroups: seq<seq<nat>>, changed: bool)
    returns (newGroups': seq<seq<nat>>, used': seq<bool>, changed': bool)
    requires PassState(boxes, groups, canMerge, i, used, newGroups, changed)
    requires i < |groups|
    ensures PassState(boxes, groups, canMerge, i + 1, used', newGroups', changed')
    ensures PassFrom(groups, canMerge, i + 1, used', newGroups', changed') == PassFrom(groups, canMerge, i, used, newGroups, changed)
  {
    if !used[i] {
      var merged;
      merged, used', changed' := AbsorbLater(boxes, groups, canMerge, i, used, changed, newGroups);
      newGroups' := newGroups + [merged];
    } else {
      PassSkip(boxes, groups, canMerge, i, used, newGroups, changed);
      newGroups', used', changed' := newGroups, used, changed;
    }
  }

  method MergePass(boxes: seq<Quad>, groups: seq<seq<nat>>, canMerge: (seq<nat>, seq<nat>) -> bool)
    returns (newGroups: seq<seq<nat>>, changed: bool)
    requires WellFormedGroups(boxes, groups)
    ensures WellFormedGroups(boxes, newGroups)
    ensures multiset(Flatten(newGroups)) == multiset(Flatten(groups))
    ensures changed ==> |newGroups| < |groups|
    ensures !changed ==> newGroups == groups && NoMergeablePairBy(groups, canMerge)
    ensures newGroups == Pass(groups, canMerge).newGroups && changed == Pass(groups, canMerge).changed
  {
    changed := false;
    newGroups := [];
    var used := NoneUsed(|groups|);
    PassStart(boxes, groups, canMerge, used);
    var i := 0;
    while i < |groups|
      invariant PassState(boxes, groups, canMerge, i, used, newGroups, changed)
      invariant PassFrom(groups, canMerge, i, used, newGroups, changed) == Pass(groups, canMerge)
    {
      newGroups, used, changed := PassStep(boxes, groups, canMerge, i, used, newGroups, changed);
      i := i + 1;
    }
    PassEnd(boxes, groups, canMerge, used, newGroups, changed);
  }

  /** A sequence in which no index occurs twice. */
  predicate NoDup(s: seq<nat>) {
    forall x :: x in multiset(s) ==> multiset(s)[x] == 1
  }

  predicate StrictlyIncreasing(s: seq<nat>) {
    forall i, j :: 0 <= i < j < |s| ==> s[i] < s[j]
  }

  lemma NoDupDistinct(s: seq<nat>, i: nat, j: nat)
    requires NoDup(s) && i < j < |s|
    ensures s[i] != s[j]
  {
    assert s == s[..j] + s[j..];
    assert s[..j][i] == s[i];
    assert s[j..][0] == s[j];
    assert multiset(s)[s[j]] == multiset(s[..j])[s[j]] + multiset(s[j..])[s[j]];
  }

  lemma NoDupPrefix(init: seq<nat>, x: nat)
    ensures NoDup(init + [x]) ==> NoDup(init) && x !in init
  {
    var s: seq<nat> := init + [x];
    if NoDup(s) {
      forall y: nat | y in multiset(init) ensures multiset(init)[y] == 1 {
        assert multiset(s)[y] == multiset(init)[y] + (if y == x then 1 else 0);
      }
      assert multiset(s)[x] == multiset(init)[x] + 1;
    }
  }

  /** The distinct elements of `s`, keeping first occurrences: the model of `set(g)`. */
  function Dedup(s: seq<nat>): (r: seq<nat>)
    ensures forall x :: x in r <==> x in s
    ensures NoDup(r)
    ensures NoDup(s) ==> r == s
  {
    if s == [] then []
    else
      var init, x := s[..|s| - 1], s[|s| - 1];
      assert s == init + [x];
      NoDupPrefix(init, x);
      var d := Dedup(init);
      if x in init then d else d + [x]
  }

  function Ascending(): nat -> Key {
    (i: nat) => Key(i, 0)
  }

  /** `sorted(list(g))` of the set `g`: its distinct indices in increasing order. */
  function SortedGroup(g: seq<nat>): (r: seq<nat>)
    ensures forall x :: x in r <==> x in g
    ensures StrictlyIncreasing(r)
    ensures NoDup(g) ==> multiset(r) == multiset(g)
  {
    var d := Dedup(g);
    var r := SortBy(d, Ascending());
    SortBySorted(d, Ascending());
    assert forall x :: x in r <==> x in multiset(d);
    forall i, j | 0 <= i < j < |r| ensures r[i] < r[j] {
      assert KeyLe(Ascending()(r[i]), Ascending()(r[j]));
      NoDupDistinct(r, i, j);
    }
    r
  }

  lemma {:induction false} FlattenPointwise(a: seq<seq<nat>>, b: seq<seq<nat>>)
    requires |a| == |b|
    requires forall k :: 0 <= k < |a| ==> forall x :: x in a[k] <==> x in b[k]
    ensures forall x :: x in Flatten(a) <==> x in Flatten(b)
    ensures (forall k :: 0 <= k < |a| ==> multiset(a[k]) == multiset(b[k])) ==>
              multiset(Flatten(a)) == multiset(Flatten(b))
  {
    if a != [] {
      FlattenPointwise(a[1..], b[1..]);
    }
  }

  lemma {:induction false} NoDupFlattenParts(groups: seq<seq<nat>>)
    requires NoDup(Flatten(groups))
    ensures forall k :: 0 <= k < |groups| ==> NoDup(groups[k])
  {
    if groups != [] {
      var f := Flatten(groups);
      assert f == groups[0] + Flatten(groups[1..]);
      forall x | x in multiset(groups[0]) ensures multiset(groups[0])[x] == 1 {
        assert multiset(f)[x] == multiset(groups[0])[x] + multiset(Flatten(groups[1..]))[x];
      }
      assert NoDup(Flatten(groups[1..])) by {
        forall x | x in multiset(Flatten(groups[1..])) ensures multiset(Flatten(groups[1..]))[x] == 1 {
          assert multiset(f)[x] == multiset(groups[0])[x] + multiset(Flatten(groups[1..]))[x];
        }
      }
      NoDupFlattenParts(groups[1..]);
      forall k | 0 < k < |groups| ensures NoDup(groups[k]) {
        assert groups[k] == groups[1..][k - 1];
      }
    }
  }

  /** `[sorted(list(g)) for g in merged_groups]`. */
  function SortGroups(groups: seq<seq<nat>>): (r: seq<seq<nat>>)
    ensures |r| == |groups| && forall k :: 0 <= k < |groups| ==> r[k] == SortedGroup(groups[k])
  {
    seq(|groups|, k requires 0 <= k < |groups| => SortedGroup(groups[k]))
  }

  /** Sorting a group's distinct indices keeps it nonempty, in range, and with the same bounding box. */
  lemma SortedGroupSameBBox(boxes: seq<Quad>, g: seq<nat>)
    requires |g| > 0 && Bounded(g, |boxes|)
    ensures |SortedGroup(g)| > 0 && Bounded(SortedGroup(g), |boxes|)
    ensures GroupBBox(boxes, SortedGroup(g)) == GroupBBox(boxes, g)
  {
    var r := SortedGroup(g);
    assert g[0] in r;
    forall t | 0 <= t < |r| ensures r[t] < |boxes| {
      assert r[t] in g;
    }
    GroupBBoxSameElements(boxes, r, g);
  }

  lemma SortGroupsProperties(boxes: seq<Quad>, groups: seq<seq<nat>>, merged: seq<seq<nat>>,
                             tolerance: real, minBubbleGap: int)
    requires WellFormedGroups(boxes, merged)
    requires multiset(Flatten(merged)) == multiset(Flatten(groups))
    requires NoMergeablePairBy(merged, GroupsMergeable(boxes, tolerance, minBubbleGap))
    ensures WellFormedGroups(boxes, SortGroups(merged))
    ensures forall x :: x in Flatten(SortGroups(merged)) <==> x in Flatten(groups)
    ensures forall m :: 0 <= m < |merged| ==> StrictlyIncreasing(SortGroups(merged)[m])
    ensures NoDup(Flatten(groups)) ==>
              NoDup(Flatten(SortGroups(merged))) && multiset(Flatten(SortGroups(merged))) == multiset(Flatten(groups))
    ensures NoMergeablePair(boxes, SortGroups(merged), tolerance, minBubbleGap)
  {
    SortGroupsSameBBoxes(boxes, merged);
    SortGroupsMembers(groups, merged);
    var result := SortGroups(merged);
    forall i, j | 0 <= i < j < |result|
      ensures !Mergeable(GroupBBox(boxes, result[i]), GroupBBox(boxes, result[j]), tolerance, minBubbleGap)
    {
      assert !GroupsMergeable(boxes, tolerance, minBubbleGap)(merged[i], merged[j]);
    }
  }

  lemma SortGroupsSameBBoxes(boxes: seq<Quad>, merged: seq<seq<nat>>)
    requires WellFormedGroups(boxes, merged)
    ensures WellFormedGroups(boxes, SortGroups(merged))
    ensures forall m :: 0 <= m < |merged| ==> GroupBBox(boxes, SortGroups(merged)[m]) == GroupBBox(boxes, merged[m])
  {
    var result := SortGroups(merged);
    forall m | 0 <= m < |result|
      ensures |result[m]| > 0 && Bounded(result[m], |boxes|)
      ensures GroupBBox(boxes, result[m]) == GroupBBox(boxes, merged[m])
    {
      SortedGroupSameBBox(boxes, merged[m]);
    }
  }

  lemma SortGroupsMembers(groups: seq<seq<nat>>, merged: seq<seq<nat>>)
    requires multiset(Flatten(merged)) == multiset(Flatten(groups))
    ensures forall x :: x in Flatten(SortGroups(merged)) <==> x in Flatten(groups)
    ensures NoDup(Flatten(groups)) ==>
              NoDup(Flatten(SortGroups(merged))) && multiset(Flatten(SortGroups(merged))) == multiset(Flatten(groups))
  {
    var result := SortGroups(merged);
    FlattenPointwise(result, merged);
    assert forall x :: x in Flatten(merged) <==> x in multiset(Flatten(groups));
    if NoDup(Flatten(groups)) {
      assert NoDup(Flatten(merged));
      NoDupFlattenParts(merged);
      FlattenPointwise(result, merged);
    }
  }

  /**
   * `merge_nested_groups`: repeat merge passes until one merges nothing,
   * then return every group as its sorted distinct indices. The result covers
   * the same indices as the input, has no more groups, and no two of its
   * groups can still merge; when the input groups are disjoint, so are the
   * output groups and every index appears exactly as often as before.
   */
  method MergeNestedGroups(groups: seq<seq<nat>>, boxes: seq<Quad>, tolerance: real, minBubbleGap: int)
    returns (result: seq<seq<nat>>)
    requires WellFormedGroups(boxes, groups)
    ensures WellFormedGroups(boxes, result) && |result| <= |groups|
    ensures forall x :: x in Flatten(result) <==> x in Flatten(groups)
    ensures forall m :: 0 <= m < |result| ==> StrictlyIncreasing(result[m])
    ensures NoDup(Flatten(groups)) ==> NoDup(Flatten(result)) && multiset(Flatten(result)) == multiset(Flatten(groups))
    ensures NoMergeablePair(boxes, result, tolerance, minBubbleGap)
    ensures result == SortGroups(MergeFix(boxes, groups, GroupsMergeable(boxes, tolerance, minBubbleGap)))
  {
    var canMerge := GroupsMergeable(boxes, tolerance, minBubbleGap);
    var merged := groups;
    var changed := true;
    while changed
      invariant WellFormedGroups(boxes, merged) && |merged| <= |groups|
      invariant multiset(Flatten(merged)) == multiset(Flatten(groups))
      invariant !changed ==> NoMergeablePairBy(merged, canMerge)
      invariant (if changed then MergeFix(boxes, merged, canMerge) else merged) == MergeFix(boxes, groups, canMerge)
      decreases |merged| + (if changed then 1 else 0)
    {
      merged, changed := MergePass(boxes, merged, canMerge);
    }
    SortGroupsProperties(boxes, groups, merged, tolerance, minBubbleGap);
    result := SortGroups(merged);
  }
}
