/**
 The detail window against the transcript it caches: fed with the answers to its own page requests, it is always a
 contiguous slice of the transcript, cut into pages, with the cursors and flags of the slice's two ends.
 */
module DetailRefinement {
  import opened Prelude
  import opened DetailWindow

  /** One immutable transcript, and the cursors the server gives out for the positions in it. */
  datatype Server = Server(session: string, rows: seq<Row>, older: nat -> Option<int>, newer: nat -> Option<int>)

  /** A position with rows before it has an older cursor of its own, one with rows after it a newer cursor of its own. */
  ghost predicate Distinguishes(s: Server) {
    && (forall p: nat :: 0 < p <= |s.rows| ==> s.older(p).Some?)
    && (forall p: nat :: p < |s.rows| ==> s.newer(p).Some?)
    && (forall p: nat, q: nat :: 0 < p <= |s.rows| && 0 < q <= |s.rows| && s.older(p) == s.older(q) ==> p == q)
    && (forall p: nat, q: nat :: p < |s.rows| && q < |s.rows| && s.newer(p) == s.newer(q) ==> p == q)
  }

  /** The page that shows rows lo to hi. */
  function Slice(s: Server, lo: nat, hi: nat, rollback: Option<nat>): (page: Page)
    requires lo <= hi <= |s.rows|
  {
    Page(s.session, s.rows[lo..hi], s.older(lo), lo > 0, s.newer(hi), hi < |s.rows|, rollback)
  }

  /** The page answers the request: it ends, or begins, at the position the cursor names. */
  ghost predicate Answers(s: Server, request: PageRequest, page: Page) {
    match request
    case Newest => exists lo: nat :: lo <= |s.rows| && page == Slice(s, lo, |s.rows|, page.rollback)
    case Older(c) => exists lo: nat, hi: nat :: lo <= hi <= |s.rows| && 0 < hi && s.older(hi) == Some(c) && page == Slice(s, lo, hi, page.rollback)
    case Newer(c) => exists lo: nat, hi: nat :: lo <= hi <= |s.rows| && lo < |s.rows| && s.newer(lo) == Some(c) && page == Slice(s, lo, hi, page.rollback)
  }

  // ---- The refinement ----

  ghost predicate Ascending(cuts: seq<nat>) {
    forall i, j :: 0 <= i < j < |cuts| ==> cuts[i] <= cuts[j]
  }

  /** Segment i shows rows cuts[i] to cuts[i+1]. */
  ghost predicate SegmentShows(s: Server, cuts: seq<nat>, i: nat, segment: Segment)
    requires i + 1 < |cuts| && Ascending(cuts)
  {
    segment == Segment(cuts[i] - cuts[0], s.older(cuts[i]), cuts[i] > 0, s.newer(cuts[i + 1]), cuts[i + 1] < |s.rows|)
  }

  ghost predicate SegmentsShow(s: Server, cuts: seq<nat>, segments: seq<Segment>) {
    && |cuts| == |segments| + 1 && Ascending(cuts)
    && (forall i :: 0 <= i < |segments| ==> SegmentShows(s, cuts, i, segments[i]))
  }

  /** The window is rows cuts[0] to the last cut, cut into segments there, with the cursors of the two ends. */
  ghost predicate Refines(w: Window, s: Server, cuts: seq<nat>) {
    && w.loaded && WellFormed(w)
    && TrimSpace(w.sessionId) == TrimSpace(s.session)
    && SegmentsShow(s, cuts, w.segments) && cuts[|cuts| - 1] <= |s.rows|
    && w.entries == s.rows[cuts[0]..cuts[|cuts| - 1]]
    && Bounds(w, s, cuts[0], cuts[|cuts| - 1])
  }

  ghost predicate Bounds(w: Window, s: Server, lo: nat, hi: nat) {
    && w.olderCursor == s.older(lo) && w.hasMoreAbove == (lo > 0)
    && w.newerCursor == s.newer(hi) && w.hasMoreBelow == (hi < |s.rows|)
  }

  lemma {:induction false} ReplaceRefines(w: Window, s: Server, lo: nat, hi: nat, page: Page)
    requires lo <= hi <= |s.rows| && page == Slice(s, lo, hi, page.rollback)
    ensures Refines(Replace(w, page), s, [lo, hi])
  {
  }

  lemma {:induction false} OneMoreSegment(s: Server, cuts: seq<nat>, segments: seq<Segment>, hi: nat, segment: Segment)
    requires SegmentsShow(s, cuts, segments) && cuts[|cuts| - 1] <= hi
    requires SegmentShows(s, [cuts[0], hi], 0, segment.(start := 0, olderCursor := s.older(cuts[0]), hasMoreAbove := cuts[0] > 0))
    requires segment.start == cuts[|cuts| - 1] - cuts[0]
    requires segment.olderCursor == s.older(cuts[|cuts| - 1]) && segment.hasMoreAbove == (cuts[|cuts| - 1] > 0)
    ensures SegmentsShow(s, cuts + [hi], segments + [segment])
  {
    var shown := cuts + [hi];
    forall i | 0 <= i < |segments| + 1 ensures SegmentShows(s, shown, i, (segments + [segment])[i]) {
      if i < |segments| {
        assert SegmentShows(s, cuts, i, segments[i]);
      }
    }
  }

  lemma {:induction false} AppendedRefines(w: Window, s: Server, cuts: seq<nat>, hi: nat, page: Page)
    requires Refines(w, s, cuts) && cuts[|cuts| - 1] <= hi <= |s.rows|
    requires page == Slice(s, cuts[|cuts| - 1], hi, page.rollback)
    ensures Refines(Appended(w, page), s, cuts + [hi])
  {
    var end := cuts[|cuts| - 1];
    assert s.rows[cuts[0]..end] + s.rows[end..hi] == s.rows[cuts[0]..hi];
    OneMoreSegment(s, cuts, w.segments, hi, SegmentOf(|w.entries|, page));
    assert SegmentShows(s, cuts, 0, w.segments[0]);
  }

  lemma {:induction false} SegmentsRaised(s: Server, cuts: seq<nat>, segments: seq<Segment>, lo: nat, first: Segment)
    requires SegmentsShow(s, cuts, segments) && lo <= cuts[0] && SegmentShows(s, [lo, cuts[0]], 0, first)
    ensures SegmentsShow(s, [lo] + cuts, [first] + RaiseStarts(segments, cuts[0] - lo))
  {
    var shown := [lo] + cuts;
    var raised := [first] + RaiseStarts(segments, cuts[0] - lo);
    forall i | 0 <= i < |raised| ensures SegmentShows(s, shown, i, raised[i]) {
      if i > 0 {
        assert SegmentShows(s, cuts, i - 1, segments[i - 1]);
      }
    }
  }

  lemma JoinedSlices(rows: seq<Row>, lo: nat, mid: nat, hi: nat)
    requires lo <= mid <= hi <= |rows|
    ensures rows[lo..mid] + rows[mid..hi] == rows[lo..hi]
  {
  }

  /** The ends of a window with a page put in front. */
  lemma PrependedEnds(w: Window, page: Page, last: Segment)
    requires WellFormed(w) && w.loaded && last == w.segments[|w.segments| - 1]
    ensures var g := Prepended(w, page);
            && g.loaded && g.sessionId == w.sessionId && g.entries == page.entries + w.entries
            && g.segments == [SegmentOf(0, page)] + RaiseStarts(w.segments, |page.entries|)
            && g.olderCursor == page.olderCursor && g.hasMoreAbove == page.hasMoreAbove
            && g.newerCursor == last.newerCursor && g.hasMoreBelow == last.hasMoreBelow
  {
  }

  lemma {:induction false} PrependedRefines(w: Window, s: Server, cuts: seq<nat>, lo: nat, page: Page)
    requires Refines(w, s, cuts) && lo <= cuts[0] && page == Slice(s, lo, cuts[0], page.rollback)
    ensures Refines(Prepended(w, page), s, [lo] + cuts)
  {
    var end, last := cuts[|cuts| - 1], |w.segments| - 1;
    assert SegmentShows(s, cuts, last, w.segments[last]);
    JoinedSlices(s.rows, lo, cuts[0], end);
    PrependedEnds(w, page, w.segments[last]);
    SegmentsRaised(s, cuts, w.segments, lo, SegmentOf(0, page));
  }

  /** The segment showing rows lo to hi of the transcript, in a window that begins at row `first`. */
  function ShownAs(s: Server, first: int, lo: nat, hi: nat): Segment
    requires first <= lo
  {
    Segment(lo - first, s.older(lo), lo > 0, s.newer(hi), hi < |s.rows|)
  }

  /** What a window says about its last two segments. */
  lemma LastTwoShown(w: Window, s: Server, cuts: seq<nat>, x: Segment, y: Segment, lo: nat, mid: nat, hi: nat)
    requires Refines(w, s, cuts) && |w.segments| > RESIDENT_SEGMENTS
    requires x == w.segments[|w.segments| - 2] && y == w.segments[|w.segments| - 1]
    requires lo == cuts[|cuts| - 3] && mid == cuts[|cuts| - 2] && hi == cuts[|cuts| - 1]
    ensures cuts[0] <= lo <= mid <= hi <= |s.rows| && w.entries == s.rows[cuts[0]..hi]
    ensures x == ShownAs(s, cuts[0], lo, mid) && y == ShownAs(s, cuts[0], mid, hi)
  {
    var m := |w.segments|;
    assert SegmentShows(s, cuts, m - 2, x) && SegmentShows(s, cuts, m - 1, y);
  }

  /** What a window cut down to its last two segments holds. */
  lemma KeepEndParts(w: Window, x: Segment, y: Segment)
    requires WellFormed(w) && |w.segments| > RESIDENT_SEGMENTS
    requires x == w.segments[|w.segments| - 2] && y == w.segments[|w.segments| - 1]
    ensures x.start <= y.start && x.start <= |w.entries|
    ensures var k := KeepEnd(w);
            && k.segments == [x.(start := 0), y.(start := y.start - x.start)] && k.entries == w.entries[x.start..]
            && k.loaded == w.loaded && k.sessionId == w.sessionId
            && k.olderCursor == x.olderCursor && k.hasMoreAbove == x.hasMoreAbove
            && k.newerCursor == y.newerCursor && k.hasMoreBelow == y.hasMoreBelow
  {
  }

  lemma SuffixRows(entries: seq<Row>, rows: seq<Row>, first: nat, lo: nat, hi: nat, start: nat)
    requires first <= lo <= hi <= |rows| && entries == rows[first..hi] && start == lo - first
    ensures entries[start..] == rows[lo..hi]
  {
    forall k | 0 <= k < hi - lo ensures entries[start..][k] == rows[lo..hi][k] {
      assert entries[start + k] == rows[first + (start + k)];
    }
  }

  lemma PrefixRows(entries: seq<Row>, rows: seq<Row>, lo: nat, mid: nat, hi: nat)
    requires lo <= mid <= hi <= |rows| && entries == rows[lo..hi]
    ensures entries[..mid - lo] == rows[lo..mid]
  {
    forall k | 0 <= k < mid - lo ensures entries[..mid - lo][k] == rows[lo..mid][k] {
      assert entries[k] == rows[lo + k];
    }
  }

  /** A window of two segments that show consecutive rows refines the transcript. */
  lemma TwoRefine(k: Window, s: Server, lo: nat, mid: nat, hi: nat)
    requires k.loaded && WellFormed(k) && TrimSpace(k.sessionId) == TrimSpace(s.session)
    requires lo <= mid <= hi <= |s.rows| && k.entries == s.rows[lo..hi]
    requires k.segments == [ShownAs(s, lo, lo, mid), ShownAs(s, lo, mid, hi)]
    requires Bounds(k, s, lo, hi)
    ensures Refines(k, s, [lo, mid, hi])
  {
    assert SegmentShows(s, [lo, mid, hi], 0, k.segments[0]) && SegmentShows(s, [lo, mid, hi], 1, k.segments[1]);
  }

  lemma EndRefines(w: Window, s: Server, x: Segment, y: Segment, first: nat, lo: nat, mid: nat, hi: nat)
    requires WellFormed(w) && |w.segments| > RESIDENT_SEGMENTS && w.loaded
    requires x == w.segments[|w.segments| - 2] && y == w.segments[|w.segments| - 1]
    requires TrimSpace(w.sessionId) == TrimSpace(s.session)
    requires first <= lo <= mid <= hi <= |s.rows| && w.entries == s.rows[first..hi]
    requires x == ShownAs(s, first, lo, mid) && y == ShownAs(s, first, mid, hi)
    ensures Refines(KeepEnd(w), s, [lo, mid, hi])
  {
    KeepEndParts(w, x, y);
    SuffixRows(w.entries, s.rows, first, lo, hi, x.start);
    TwoRefine(KeepEnd(w), s, lo, mid, hi);
  }

  lemma {:induction false} KeepEndRefines(w: Window, s: Server, cuts: seq<nat>)
    requires Refines(w, s, cuts) && |w.segments| > RESIDENT_SEGMENTS
    ensures Refines(KeepEnd(w), s, [cuts[|cuts| - 3], cuts[|cuts| - 2], cuts[|cuts| - 1]])
  {
    var x, y := w.segments[|w.segments| - 2], w.segments[|w.segments| - 1];
    var lo, mid, hi := cuts[|cuts| - 3], cuts[|cuts| - 2], cuts[|cuts| - 1];
    LastTwoShown(w, s, cuts, x, y, lo, mid, hi);
    EndRefines(w, s, x, y, cuts[0], lo, mid, hi);
  }

  /** What a window says about its first two segments. */
  lemma FirstTwoShown(w: Window, s: Server, cuts: seq<nat>)
    requires Refines(w, s, cuts) && |w.segments| > RESIDENT_SEGMENTS
    ensures cuts[0] <= cuts[1] <= cuts[2] <= cuts[|cuts| - 1] <= |s.rows|
    ensures w.entries == s.rows[cuts[0]..cuts[|cuts| - 1]] && w.segments[2].start == cuts[2] - cuts[0]
    ensures w.segments[0] == ShownAs(s, cuts[0], cuts[0], cuts[1]) && w.segments[1] == ShownAs(s, cuts[0], cuts[1], cuts[2])
  {
    assert SegmentShows(s, cuts, 0, w.segments[0]) && SegmentShows(s, cuts, 1, w.segments[1]) && SegmentShows(s, cuts, 2, w.segments[2]);
  }

  /** What a window cut down to its first two segments holds. */
  lemma KeepFrontParts(w: Window)
    requires WellFormed(w) && |w.segments| > RESIDENT_SEGMENTS
    ensures var k, x, y := KeepFront(w), w.segments[0], w.segments[1];
            && k.segments == [x, y] && k.entries == w.entries[..w.segments[2].start]
            && k.loaded == w.loaded && k.sessionId == w.sessionId
            && k.olderCursor == x.olderCursor && k.hasMoreAbove == x.hasMoreAbove
            && k.newerCursor == y.newerCursor && k.hasMoreBelow == y.hasMoreBelow
  {
  }

  lemma FrontRefines(w: Window, s: Server, lo: nat, mid: nat, hi: nat, end: nat)
    requires WellFormed(w) && |w.segments| > RESIDENT_SEGMENTS && w.loaded
    requires TrimSpace(w.sessionId) == TrimSpace(s.session)
    requires lo <= mid <= hi <= end <= |s.rows| && w.entries == s.rows[lo..end] && w.segments[2].start == hi - lo
    requires w.segments[0] == ShownAs(s, lo, lo, mid) && w.segments[1] == ShownAs(s, lo, mid, hi)
    ensures Refines(KeepFront(w), s, [lo, mid, hi])
  {
    KeepFrontParts(w);
    PrefixRows(w.entries, s.rows, lo, hi, end);
    TwoRefine(KeepFront(w), s, lo, mid, hi);
  }

  lemma {:induction false} KeepFrontRefines(w: Window, s: Server, cuts: seq<nat>)
    requires Refines(w, s, cuts) && |w.segments| > RESIDENT_SEGMENTS
    ensures Refines(KeepFront(w), s, [cuts[0], cuts[1], cuts[2]])
  {
    FirstTwoShown(w, s, cuts);
    FrontRefines(w, s, cuts[0], cuts[1], cuts[2], cuts[|cuts| - 1]);
  }

  lemma {:induction false} MergedEndRefines(w: Window, s: Server, cuts: seq<nat>, hi: nat, page: Page) returns (shown: seq<nat>)
    requires Refines(w, s, cuts) && cuts[|cuts| - 1] <= hi <= |s.rows|
    requires page == Slice(s, cuts[|cuts| - 1], hi, page.rollback)
    ensures Refines(KeepEnd(Appended(w, page)), s, shown)
  {
    AppendedRefines(w, s, cuts, hi, page);
    shown := cuts + [hi];
    if |Appended(w, page).segments| > RESIDENT_SEGMENTS {
      KeepEndRefines(Appended(w, page), s, shown);
      shown := [shown[|shown| - 3], shown[|shown| - 2], shown[|shown| - 1]];
    }
  }

  lemma {:induction false} MergedFrontRefines(w: Window, s: Server, cuts: seq<nat>, lo: nat, page: Page) returns (shown: seq<nat>)
    requires Refines(w, s, cuts) && lo <= cuts[0] && page == Slice(s, lo, cuts[0], page.rollback)
    ensures Refines(KeepFront(Prepended(w, page)), s, shown)
  {
    PrependedRefines(w, s, cuts, lo, page);
    shown := [lo] + cuts;
    if |Prepended(w, page).segments| > RESIDENT_SEGMENTS {
      KeepFrontRefines(Prepended(w, page), s, shown);
      shown := [shown[0], shown[1], shown[2]];
    }
  }

  // ---- One load ----

  /** The page arrives for the request the window made itself, or shows a page the window already holds. */
  ghost predicate ContinuesAbove(w: Window, s: Server, page: Page)
    requires WellFormed(w)
  {
    (PageBefore(w).Some? && Answers(s, PageBefore(w).value, page)) || HasSegment(w, page)
  }

  ghost predicate ContinuesBelow(w: Window, s: Server, page: Page)
    requires WellFormed(w)
  {
    (PageAfter(w).Some? && Answers(s, PageAfter(w).value, page)) || HasSegment(w, page)
  }

  lemma RollbackIsIrrelevant(w: Window, page: Page)
    requires WellFormed(w)
    ensures HasSegment(w.(rollback := page.rollback), page) <==> HasSegment(w, page)
  {
    var v := w.(rollback := page.rollback);
    assert forall i :: 0 <= i < |w.segments| ==> (Holds(v, i, page) <==> Holds(w, i, page));
  }

  lemma {:induction false} AppendRefines(w: Window, s: Server, cuts: seq<nat>, page: Page) returns (shown: seq<nat>)
    requires Refines(w, s, cuts) && Distinguishes(s) && page.sessionId == s.session
    requires ContinuesBelow(w, s, page)
    ensures Refines(AppendCursorPage(w, page).window, s, shown)
  {
    var v := w.(rollback := page.rollback);
    assert Refines(v, s, cuts);
    RollbackIsIrrelevant(w, page);
    if HasSegment(v, page) {
      shown := cuts;
    } else {
      var end := cuts[|cuts| - 1];
      var lo: nat, hi: nat :| lo <= hi <= |s.rows| && lo < |s.rows| && s.newer(lo) == w.newerCursor && page == Slice(s, lo, hi, page.rollback);
      assert lo == end;
      if page.entries == [] {
        shown := cuts;
        EmptyAppendChangesNothing(v, s, cuts, page);
      } else {
        MergedAppend(w, page);
        shown := MergedEndRefines(v, s, cuts, hi, page);
      }
    }
  }

  lemma {:induction false} EmptyAppendChangesNothing(w: Window, s: Server, cuts: seq<nat>, page: Page)
    requires Refines(w, s, cuts) && w.rollback == page.rollback && page.entries == [] && page.sessionId == s.session
    requires cuts[|cuts| - 1] < |s.rows|
    requires page == Slice(s, cuts[|cuts| - 1], cuts[|cuts| - 1], page.rollback)
    ensures AppendCursorPage(w, page).window == w
  {
    var last := |w.segments| - 1;
    assert SegmentShows(s, cuts, last, w.segments[last]);
    assert w.segments[last := w.segments[last]] == w.segments;
  }

  lemma {:induction false} EmptyPrependChangesNothing(w: Window, s: Server, cuts: seq<nat>, page: Page)
    requires Refines(w, s, cuts) && w.rollback == page.rollback && page.entries == [] && page.sessionId == s.session
    requires page == Slice(s, cuts[0], cuts[0], page.rollback)
    ensures PrependCursorPage(w, page).window == w
  {
    assert SegmentShows(s, cuts, 0, w.segments[0]);
    assert w.segments[0 := w.segments[0]] == w.segments;
  }

  lemma {:induction false} PrependRefines(w: Window, s: Server, cuts: seq<nat>, page: Page) returns (shown: seq<nat>)
    requires Refines(w, s, cuts) && Distinguishes(s) && page.sessionId == s.session
    requires ContinuesAbove(w, s, page)
    ensures Refines(PrependCursorPage(w, page).window, s, shown)
  {
    var v := w.(rollback := page.rollback);
    assert Refines(v, s, cuts);
    RollbackIsIrrelevant(w, page);
    if HasSegment(v, page) {
      shown := cuts;
    } else {
      var lo: nat, hi: nat :| lo <= hi <= |s.rows| && 0 < hi && s.older(hi) == w.olderCursor && page == Slice(s, lo, hi, page.rollback);
      assert hi == cuts[0];
      if page.entries == [] {
        shown := cuts;
        EmptyPrependChangesNothing(v, s, cuts, page);
      } else {
        MergedPrepend(w, page);
        shown := MergedFrontRefines(v, s, cuts, lo, page);
      }
    }
  }

  /** The page begins and ends where the window does, by cursors and flags. */
  predicate SameEnds(w: Window, page: Page) {
    && page.olderCursor == w.olderCursor && page.hasMoreAbove == w.hasMoreAbove
    && page.newerCursor == w.newerCursor && page.hasMoreBelow == w.hasMoreBelow
  }

  /** Reading the ends' cursors again changes nothing but the rollback candidate, exactly for a page with these ends. */
  lemma {:induction false} RefreshChangesExactly(w: Window, s: Server, cuts: seq<nat>, page: Page)
    requires Refines(w, s, cuts)
    ensures RefreshEdgeCursors(w, page) == w.(rollback := page.rollback) <==> SameEnds(w, page)
  {
    var last := |w.segments| - 1;
    assert SegmentShows(s, cuts, 0, w.segments[0]) && SegmentShows(s, cuts, last, w.segments[last]);
    assert w.segments[0 := w.segments[0]] == w.segments && w.segments[last := w.segments[last]] == w.segments;
  }

  // ---- Whole runs ----

  /** Rows replaced by a page from anywhere, a page added at an end, or the ends' cursors read again. */
  datatype Load = LoadReplace(page: Page) | LoadOlder(page: Page) | LoadNewer(page: Page) | LoadRefresh(page: Page)

  ghost predicate IsSlice(s: Server, page: Page) {
    exists lo: nat, hi: nat :: lo <= hi <= |s.rows| && page == Slice(s, lo, hi, page.rollback)
  }

  ghost predicate Legal(w: Window, s: Server, load: Load)
    requires WellFormed(w)
  {
    && load.page.sessionId == s.session
    && match load
       case LoadReplace(page) => IsSlice(s, page)
       case LoadOlder(page) => ContinuesAbove(w, s, page)
       case LoadNewer(page) => ContinuesBelow(w, s, page)
       case LoadRefresh(page) => w.loaded && SameEnds(w, page)
  }

  function Apply(w: Window, load: Load): (r: Window)
    requires WellFormed(w)
    ensures WellFormed(r)
  {
    match load
    case LoadReplace(page) => Replace(w, page)
    case LoadOlder(page) => PrependCursorPage(w, page).window
    case LoadNewer(page) => AppendCursorPage(w, page).window
    case LoadRefresh(page) => RefreshKeepsRows(w, page); RefreshEdgeCursors(w, page)
  }

  function ApplyAll(w: Window, loads: seq<Load>): (r: Window)
    requires WellFormed(w)
    ensures WellFormed(r)
    decreases |loads|
  {
    if loads == [] then w else ApplyAll(Apply(w, loads[0]), loads[1..])
  }

  ghost predicate LegalRun(w: Window, s: Server, loads: seq<Load>)
    requires WellFormed(w)
    decreases |loads|
  {
    loads != [] ==> Legal(w, s, loads[0]) && LegalRun(Apply(w, loads[0]), s, loads[1..])
  }

  lemma {:induction false} LoadRefines(w: Window, s: Server, cuts: seq<nat>, load: Load) returns (shown: seq<nat>)
    requires Distinguishes(s) && WellFormed(w) && (w.loaded ==> Refines(w, s, cuts)) && Legal(w, s, load)
    ensures Refines(Apply(w, load), s, shown)
  {
    match load
    case LoadReplace(page) =>
      var lo: nat, hi: nat :| lo <= hi <= |s.rows| && page == Slice(s, lo, hi, page.rollback);
      ReplaceRefines(w, s, lo, hi, page);
      shown := [lo, hi];
    case LoadOlder(page) => shown := PrependRefines(w, s, cuts, page);
    case LoadNewer(page) => shown := AppendRefines(w, s, cuts, page);
    case LoadRefresh(page) =>
      RefreshChangesExactly(w, s, cuts, page);
      shown := cuts;
  }

  lemma {:induction false} LoadStaysBounded(w: Window, load: Load)
    requires WellFormed(w) && |w.segments| <= RESIDENT_SEGMENTS
    ensures |Apply(w, load).segments| <= RESIDENT_SEGMENTS
  {
    if load.LoadRefresh? {
      RefreshKeepsRows(w, load.page);
    } else if Merges(w, load.page) {
      AppendConservesRows(w, load.page);
      PrependKeepsPrefix(w, load.page);
    }
  }

  lemma {:induction false} RunRefines(w: Window, s: Server, cuts: seq<nat>, loads: seq<Load>) returns (shown: seq<nat>)
    requires Distinguishes(s) && Refines(w, s, cuts) && LegalRun(w, s, loads) && |w.segments| <= RESIDENT_SEGMENTS
    ensures Refines(ApplyAll(w, loads), s, shown) && |ApplyAll(w, loads).segments| <= RESIDENT_SEGMENTS
    decreases |loads|
  {
    if loads == [] {
      shown := cuts;
    } else {
      var next := LoadRefines(w, s, cuts, loads[0]);
      LoadStaysBounded(w, loads[0]);
      shown := RunRefines(Apply(w, loads[0]), s, next, loads[1..]);
    }
  }

  /**
   However pages replace the window, from anywhere in the transcript, or are prepended, appended, repeated, evicted and
   read again, the window stays an exact slice of the transcript in at most two pages, and it can be extended at an end
   exactly when the transcript goes on there.
   */
  lemma {:induction false} WindowRefinesTranscript(s: Server, loads: seq<Load>) returns (cuts: seq<nat>)
    requires Distinguishes(s) && LegalRun(EMPTY, s, loads) && loads != []
    ensures var w := ApplyAll(EMPTY, loads);
            && Refines(w, s, cuts) && |w.segments| <= RESIDENT_SEGMENTS
            && (PageBefore(w).Some? <==> cuts[0] > 0)
            && (PageAfter(w).Some? <==> cuts[|cuts| - 1] < |s.rows|)
  {
    var first := LoadRefines(EMPTY, s, [], loads[0]);
    LoadStaysBounded(EMPTY, loads[0]);
    cuts := RunRefines(Apply(EMPTY, loads[0]), s, first, loads[1..]);
  }
}
