/**
 The detail transcript window: a cache of at most two adjacent pages of a transcript, extended at either end by the
 page a cursor names, with the far page evicted whenever a third one appears.
 */
module DetailWindow {
  import opened Prelude

  const RESIDENT_SEGMENTS: nat := 2

  datatype Row = Row(id: nat, text: string)

  datatype Page = Page(
    sessionId: string,
    entries: seq<Row>,
    olderCursor: Option<int>,
    hasMoreAbove: bool,
    newerCursor: Option<int>,
    hasMoreBelow: bool,
    rollback: Option<nat>)

  datatype Segment = Segment(
    start: nat,
    olderCursor: Option<int>,
    hasMoreAbove: bool,
    newerCursor: Option<int>,
    hasMoreBelow: bool)

  datatype Window = Window(
    sessionId: string,
    entries: seq<Row>,
    loaded: bool,
    olderCursor: Option<int>,
    hasMoreAbove: bool,
    newerCursor: Option<int>,
    hasMoreBelow: bool,
    rollback: Option<nat>,
    segments: seq<Segment>)

  const EMPTY := Window("", [], false, None, false, None, false, None, [])

  /** Segments cut the entries in order, the first one at the front. */
  predicate Cut(entries: seq<Row>, segments: seq<Segment>) {
    && (segments != [] ==> segments[0].start == 0)
    && (segments == [] ==> entries == [])
    && (forall i :: 0 <= i < |segments| ==> segments[i].start <= |entries|)
    && (forall i, j :: 0 <= i < j < |segments| ==> segments[i].start <= segments[j].start)
  }

  predicate WellFormed(w: Window) {
    Cut(w.entries, w.segments) && (w.loaded <==> w.segments != [])
  }

  function SegmentOf(start: nat, page: Page): (s: Segment) {
    Segment(start, page.olderCursor, page.hasMoreAbove, page.newerCursor, page.hasMoreBelow)
  }

  function RefreshBounds(w: Window): (r: Window) {
    if w.segments == [] then w
    else
      var top, bottom := w.segments[0], w.segments[|w.segments| - 1];
      w.(olderCursor := top.olderCursor, hasMoreAbove := top.hasMoreAbove,
         newerCursor := bottom.newerCursor, hasMoreBelow := bottom.hasMoreBelow)
  }

  predicate SessionChanged(current: string, next: string) {
    TrimSpace(current) != "" && TrimSpace(current) != TrimSpace(next)
  }

  function SegmentEnd(w: Window, i: nat): (e: nat)
    requires i < |w.segments|
  {
    if i + 1 < |w.segments| then w.segments[i + 1].start else |w.entries|
  }

  /** Segment i holds exactly this page. */
  predicate Holds(w: Window, i: nat, page: Page)
    requires WellFormed(w) && i < |w.segments|
  {
    SegmentOf(w.segments[i].start, page) == w.segments[i] && w.entries[w.segments[i].start..SegmentEnd(w, i)] == page.entries
  }

  predicate HasSegment(w: Window, page: Page)
    requires WellFormed(w)
  {
    page.entries != [] && exists i :: 0 <= i < |w.segments| && Holds(w, i, page)
  }

  // ---- Eviction ----

  /** Resident rows and segments, and the rows evicted at the front. */
  datatype Resident = Resident(entries: seq<Row>, segments: seq<Segment>, front: seq<Row>)

  function Shifted(segments: seq<Segment>, cut: nat): (r: seq<Segment>)
    requires forall i :: 0 <= i < |segments| ==> cut <= segments[i].start
    ensures |r| == |segments|
    ensures forall i :: 0 <= i < |r| ==> r[i] == segments[i].(start := segments[i].start - cut)
  {
    seq(|segments|, i requires 0 <= i < |segments| => segments[i].(start := segments[i].start - cut))
  }

  function DropLast(r: Resident): (left: Resident)
    requires Cut(r.entries, r.segments) && |r.segments| > 1
    ensures Cut(left.entries, left.segments)
  {
    var last := |r.segments| - 1;
    r.(entries := r.entries[..r.segments[last].start], segments := r.segments[..last])
  }

  function DropFirst(r: Resident): (left: Resident)
    requires Cut(r.entries, r.segments) && |r.segments| > 1
    ensures Cut(left.entries, left.segments)
  {
    var cut := r.segments[1].start;
    Resident(r.entries[cut..], Shifted(r.segments[1..], cut), r.front + r.entries[..cut])
  }

  /** Evicts the segment farther from the anchor until two are left. */
  function Evict(r: Resident, anchor: nat): (left: Resident)
    requires Cut(r.entries, r.segments) && (r.segments != [] ==> anchor < |r.segments|)
    ensures Cut(left.entries, left.segments)
    decreases |r.segments|
  {
    var last := |r.segments| - 1;
    if |r.segments| <= RESIDENT_SEGMENTS then r
    else if last - anchor >= anchor && anchor != last then Evict(DropLast(r), anchor)
    else if anchor != 0 then Evict(DropFirst(r), anchor - 1)
    else r
  }

  /** The last segment that starts at or before a row position. */
  function AnchorSegment(segments: seq<Segment>, local: nat): (k: nat)
    requires segments != [] && segments[0].start <= local
    ensures k < |segments| && segments[k].start <= local
    ensures k + 1 < |segments| ==> local < segments[k + 1].start
    ensures forall i :: 0 <= i < k ==> segments[i].start <= local
  {
    if |segments| > 1 && segments[1].start <= local then 1 + AnchorSegment(segments[1..], local) else 0
  }

  function TrimToSegments(w: Window, anchorLocal: nat): (r: (Window, seq<Row>))
    requires WellFormed(w)
    ensures WellFormed(r.0)
  {
    if |w.segments| <= RESIDENT_SEGMENTS then (w, [])
    else
      var local := if anchorLocal > |w.entries| then |w.entries| else anchorLocal;
      var left := Evict(Resident(w.entries, w.segments, []), AnchorSegment(w.segments, local));
      EvictionLeavesSome(Resident(w.entries, w.segments, []), AnchorSegment(w.segments, local));
      (RefreshBounds(w.(entries := left.entries, segments := left.segments)), left.front)
  }

  lemma EvictionLeavesSome(r: Resident, anchor: nat)
    requires Cut(r.entries, r.segments) && anchor < |r.segments|
    ensures Evict(r, anchor).segments != []
    decreases |r.segments|
  {
  }

  // ---- The page operations ----

  function Replace(w: Window, page: Page): (r: Window)
    ensures WellFormed(r)
  {
    RefreshBounds(w.(sessionId := TrimSpace(page.sessionId), entries := page.entries, loaded := true,
                     rollback := page.rollback, segments := [SegmentOf(0, page)]))
  }

  /** The next window, how many entries were added, and the rows evicted at the front. */
  datatype Merge = Merge(window: Window, added: nat, trimmedFront: seq<Row>)

  function RaiseStarts(segments: seq<Segment>, rows: nat): (r: seq<Segment>)
    ensures |r| == |segments|
    ensures forall i :: 0 <= i < |r| ==> r[i] == segments[i].(start := segments[i].start + rows)
  {
    seq(|segments|, i requires 0 <= i < |segments| => segments[i].(start := segments[i].start + rows))
  }

  function Prepended(w: Window, page: Page): (r: Window)
    requires WellFormed(w) && w.loaded
    ensures WellFormed(r)
  {
    RefreshBounds(w.(entries := page.entries + w.entries,
                     segments := [SegmentOf(0, page)] + RaiseStarts(w.segments, |page.entries|)))
  }

  function Appended(w: Window, page: Page): (r: Window)
    requires WellFormed(w) && w.loaded
    ensures WellFormed(r)
  {
    RefreshBounds(w.(entries := w.entries + page.entries, segments := w.segments + [SegmentOf(|w.entries|, page)]))
  }

  function PrependCursorPage(w: Window, page: Page): (m: Merge)
    requires WellFormed(w)
    ensures WellFormed(m.window)
  {
    if !w.loaded || SessionChanged(w.sessionId, page.sessionId) then Merge(Replace(w, page), 0, [])
    else
      var w := w.(rollback := page.rollback);
      if HasSegment(w, page) then Merge(w, 0, [])
      else if page.entries == [] then
        var top := w.segments[0].(olderCursor := page.olderCursor, hasMoreAbove := page.hasMoreAbove);
        Merge(RefreshBounds(w.(segments := w.segments[0 := top])), 0, [])
      else
        var (trimmed, front) := TrimToSegments(Prepended(w, page), 0);
        Merge(trimmed, |page.entries|, front)
  }

  function AppendCursorPage(w: Window, page: Page): (m: Merge)
    requires WellFormed(w)
    ensures WellFormed(m.window)
  {
    if !w.loaded || SessionChanged(w.sessionId, page.sessionId) then Merge(Replace(w, page), 0, [])
    else
      var w := w.(rollback := page.rollback);
      if HasSegment(w, page) then Merge(w, 0, [])
      else if page.entries == [] then
        var last := |w.segments| - 1;
        var bottom := w.segments[last].(newerCursor := page.newerCursor, hasMoreBelow := page.hasMoreBelow);
        Merge(RefreshBounds(w.(segments := w.segments[last := bottom])), 0, [])
      else
        var grown := Appended(w, page);
        var (trimmed, front) := TrimToSegments(grown, |grown.entries|);
        Merge(trimmed, |page.entries|, front)
  }

  /** The window shows exactly the rows of this page. */
  predicate MatchesPage(w: Window, page: Page) {
    w.loaded && !SessionChanged(w.sessionId, page.sessionId) && w.entries == page.entries
  }

  /** Takes the cursors and flags of the window's two ends from a page. */
  function RefreshEdgeCursors(w: Window, page: Page): (r: Window) {
    if w.segments == [] then w
    else
      var topped := w.segments[0 := w.segments[0].(olderCursor := page.olderCursor, hasMoreAbove := page.hasMoreAbove)];
      var last := |topped| - 1;
      var edged := topped[last := topped[last].(newerCursor := page.newerCursor, hasMoreBelow := page.hasMoreBelow)];
      RefreshBounds(w.(segments := edged, rollback := page.rollback))
  }

  lemma RefreshKeepsRows(w: Window, page: Page)
    requires WellFormed(w)
    ensures var r := RefreshEdgeCursors(w, page);
            WellFormed(r) && r.entries == w.entries && |r.segments| == |w.segments|
  {
  }

  datatype PageRequest = Newest | Older(cursor: int) | Newer(cursor: int)

  function PageBefore(w: Window): (r: Option<PageRequest>) {
    if !w.loaded || !w.hasMoreAbove || w.olderCursor.None? then None else Some(Older(w.olderCursor.value))
  }

  function PageAfter(w: Window): (r: Option<PageRequest>) {
    if !w.loaded || !w.hasMoreBelow || w.newerCursor.None? then None else Some(Newer(w.newerCursor.value))
  }

  // ---- What eviction keeps ----

  /** With the anchor in front, the two front segments stay and nothing is evicted at the front. */
  lemma {:induction false} EvictBehind(r: Resident)
    requires Cut(r.entries, r.segments) && |r.segments| >= RESIDENT_SEGMENTS
    ensures Evict(r, 0) ==
            r.(entries := if |r.segments| == 2 then r.entries else r.entries[..r.segments[2].start], segments := r.segments[..2])
    decreases |r.segments|
  {
    if |r.segments| == 2 {
      assert r.segments[..2] == r.segments;
    } else {
      var d := DropLast(r);
      EvictBehind(d);
      assert d.segments[..2] == r.segments[..2];
      if |r.segments| > 3 {
        assert d.entries[..r.segments[2].start] == r.entries[..r.segments[2].start];
      }
    }
  }

  /** `e` holds the last two segments of `r` and their rows; all rows before them went to the front. */
  predicate LastTwo(r: Resident, e: Resident)
    requires Cut(r.entries, r.segments) && |r.segments| >= RESIDENT_SEGMENTS
  {
    var m := |r.segments|;
    var cut := r.segments[m - 2].start;
    && e.entries == r.entries[cut..]
    && e.front == r.front + r.entries[..cut]
    && |e.segments| == 2
    && e.segments[0] == r.segments[m - 2].(start := 0)
    && e.segments[1] == r.segments[m - 1].(start := r.segments[m - 1].start - cut)
  }

  lemma SuffixOfSuffix(rows: seq<Row>, front: seq<Row>, first: nat, cut: nat)
    requires first <= cut <= |rows|
    ensures rows[first..][cut - first..] == rows[cut..]
    ensures front + rows[..first] + rows[first..][..cut - first] == front + rows[..cut]
  {
    assert rows[..first] + rows[first..][..cut - first] == rows[..cut];
    assert front + rows[..first] + rows[first..][..cut - first] == front + (rows[..first] + rows[first..][..cut - first]);
  }

  lemma DroppedSegments(r: Resident)
    requires Cut(r.entries, r.segments) && |r.segments| > RESIDENT_SEGMENTS
    ensures var m, d, first := |r.segments|, DropFirst(r), r.segments[1].start;
            && first <= r.segments[m - 2].start <= |r.entries|
            && d.entries == r.entries[first..] && d.front == r.front + r.entries[..first] && |d.segments| == m - 1
            && d.segments[m - 3] == r.segments[m - 2].(start := r.segments[m - 2].start - first)
            && d.segments[m - 2] == r.segments[m - 1].(start := r.segments[m - 1].start - first)
  {
  }

  lemma AheadOfFirst(r: Resident, d: Resident, e: Resident)
    requires Cut(r.entries, r.segments) && |r.segments| > RESIDENT_SEGMENTS && d == DropFirst(r) && LastTwo(d, e)
    ensures LastTwo(r, e)
  {
    DroppedSegments(r);
    SuffixOfSuffix(r.entries, r.front, r.segments[1].start, r.segments[|r.segments| - 2].start);
  }

  lemma TwoAreLast(r: Resident)
    requires Cut(r.entries, r.segments) && |r.segments| == RESIDENT_SEGMENTS
    ensures LastTwo(r, r)
  {
    assert r.entries[..0] == [] && r.front + [] == r.front && r.entries[0..] == r.entries;
  }

  /** With the anchor at the end, the two end segments stay and everything before them is evicted at the front. */
  lemma {:induction false} EvictAhead(r: Resident, e: Resident)
    requires Cut(r.entries, r.segments) && |r.segments| >= RESIDENT_SEGMENTS && e == Evict(r, |r.segments| - 1)
    ensures LastTwo(r, e)
    decreases |r.segments|
  {
    if |r.segments| > 2 {
      EvictAhead(DropFirst(r), e);
      AheadOfFirst(r, DropFirst(r), e);
    } else {
      TwoAreLast(r);
    }
  }

  /** Segment k of `e` is the anchor's segment of `r`, with its rows; rows are evicted only around it. */
  ghost predicate KeepsAnchor(r: Resident, anchor: nat, e: Resident, k: nat) {
    && anchor < |r.segments| && k < |e.segments|
    && e.front + e.entries <= r.front + r.entries
    && e.segments[k] == r.segments[anchor].(start := e.segments[k].start)
    && |e.front| + e.segments[k].start == |r.front| + r.segments[anchor].start
  }

  lemma {:induction false} AfterDroppingFirst(r: Resident, anchor: nat, e: Resident, k: nat)
    requires Cut(r.entries, r.segments) && 0 < anchor < |r.segments|
    requires KeepsAnchor(DropFirst(r), anchor - 1, e, k)
    ensures KeepsAnchor(r, anchor, e, k)
  {
    var cut := r.segments[1].start;
    assert r.entries[..cut] + r.entries[cut..] == r.entries;
    assert r.front + r.entries[..cut] + r.entries[cut..] == r.front + (r.entries[..cut] + r.entries[cut..]);
  }

  lemma {:induction false} AfterDroppingLast(r: Resident, anchor: nat, e: Resident, k: nat)
    requires Cut(r.entries, r.segments) && anchor < |r.segments| - 1
    requires KeepsAnchor(DropLast(r), anchor, e, k)
    ensures KeepsAnchor(r, anchor, e, k)
  {
    assert DropLast(r).front + DropLast(r).entries <= r.front + r.entries;
  }

  /** Eviction always ends with at most two segments, and the anchor's segment with its rows is one of them. */
  lemma {:induction false} EvictionKeepsAnchor(r: Resident, anchor: nat, e: Resident) returns (k: nat)
    requires Cut(r.entries, r.segments) && anchor < |r.segments| && e == Evict(r, anchor)
    ensures |e.segments| <= RESIDENT_SEGMENTS && KeepsAnchor(r, anchor, e, k)
    decreases |r.segments|
  {
    var last := |r.segments| - 1;
    if |r.segments| <= RESIDENT_SEGMENTS {
      k := anchor;
    } else if last - anchor >= anchor && anchor != last {
      k := EvictionKeepsAnchor(DropLast(r), anchor, e);
      AfterDroppingLast(r, anchor, e, k);
    } else {
      k := EvictionKeepsAnchor(DropFirst(r), anchor - 1, e);
      AfterDroppingFirst(r, anchor, e, k);
    }
  }

  /** A merge that neither replaces the window nor repeats a resident page. */
  predicate Merges(w: Window, page: Page)
    requires WellFormed(w)
  {
    w.loaded && !SessionChanged(w.sessionId, page.sessionId) && !HasSegment(w.(rollback := page.rollback), page)
  }

  /** Where the last two segments begin. */
  function EndCut(w: Window): (cut: nat) {
    if |w.segments| <= RESIDENT_SEGMENTS then 0 else w.segments[|w.segments| - 2].start
  }

  /** The window cut down to its last two segments. */
  function KeepEnd(w: Window): (r: Window)
    requires WellFormed(w)
    ensures WellFormed(r)
    ensures r.entries == w.entries[EndCut(w)..] && |r.segments| <= RESIDENT_SEGMENTS
  {
    var m, cut := |w.segments|, EndCut(w);
    if m <= RESIDENT_SEGMENTS then w
    else
      RefreshBounds(w.(
        entries := w.entries[cut..],
        segments := [w.segments[m - 2].(start := 0), w.segments[m - 1].(start := w.segments[m - 1].start - cut)]))
  }

  /** The window cut down to its first two segments. */
  function KeepFront(w: Window): (r: Window)
    requires WellFormed(w)
    ensures WellFormed(r)
  {
    if |w.segments| <= RESIDENT_SEGMENTS then w
    else RefreshBounds(w.(entries := w.entries[..w.segments[2].start], segments := w.segments[..2]))
  }

  lemma LastTwoIsKeepEnd(g: Window, e: Resident)
    requires WellFormed(g) && |g.segments| > RESIDENT_SEGMENTS && LastTwo(Resident(g.entries, g.segments, []), e)
    ensures RefreshBounds(g.(entries := e.entries, segments := e.segments)) == KeepEnd(g)
    ensures e.front == g.entries[..EndCut(g)]
  {
    assert e.segments == [e.segments[0], e.segments[1]];
    assert [] + g.entries[..EndCut(g)] == g.entries[..EndCut(g)];
  }

  lemma {:induction false} TrimAfterAppend(w: Window, page: Page)
    requires WellFormed(w) && w.loaded
    ensures var g := Appended(w, page); TrimToSegments(g, |g.entries|) == (KeepEnd(g), g.entries[..EndCut(g)])
  {
    var g := Appended(w, page);
    assert AnchorSegment(g.segments, |g.entries|) == |g.segments| - 1;
    if |g.segments| > RESIDENT_SEGMENTS {
      var whole := Resident(g.entries, g.segments, []);
      var e := Evict(whole, |g.segments| - 1);
      EvictAhead(whole, e);
      LastTwoIsKeepEnd(g, e);
    }
  }

  lemma {:induction false} TrimAfterPrepend(w: Window, page: Page)
    requires WellFormed(w) && w.loaded && page.entries != []
    ensures TrimToSegments(Prepended(w, page), 0) == (KeepFront(Prepended(w, page)), [])
  {
    var g := Prepended(w, page);
    assert AnchorSegment(g.segments, 0) == 0;
    if |g.segments| > RESIDENT_SEGMENTS {
      EvictBehind(Resident(g.entries, g.segments, []));
    }
  }

  /** What a merging append and a merging prepend amount to. */
  lemma {:induction false} MergedAppend(w: Window, page: Page)
    requires WellFormed(w) && Merges(w, page) && page.entries != []
    ensures var g := Appended(w.(rollback := page.rollback), page);
            AppendCursorPage(w, page) == Merge(KeepEnd(g), |page.entries|, g.entries[..EndCut(g)])
  {
    TrimAfterAppend(w.(rollback := page.rollback), page);
  }

  lemma {:induction false} MergedPrepend(w: Window, page: Page)
    requires WellFormed(w) && Merges(w, page) && page.entries != []
    ensures var g := Prepended(w.(rollback := page.rollback), page);
            PrependCursorPage(w, page) == Merge(KeepFront(g), |page.entries|, [])
  {
    TrimAfterPrepend(w.(rollback := page.rollback), page);
  }

  /** Appending loses no row: what is evicted at the front, followed by the window, is the old window and the page. */
  lemma {:induction false} AppendConservesRows(w: Window, page: Page)
    requires WellFormed(w) && Merges(w, page)
    ensures var m := AppendCursorPage(w, page);
            && m.trimmedFront + m.window.entries == w.entries + page.entries
            && m.added == |page.entries|
            && (|w.segments| <= RESIDENT_SEGMENTS ==> |m.window.segments| <= RESIDENT_SEGMENTS)
  {
    if page.entries == [] {
      assert [] + w.entries == w.entries + [];
    } else {
      MergedAppend(w, page);
      EndSplits(Appended(w.(rollback := page.rollback), page));
    }
  }

  lemma EndSplits(w: Window)
    requires WellFormed(w)
    ensures w.entries[..EndCut(w)] + KeepEnd(w).entries == w.entries
  {
    assert w.entries[..EndCut(w)] + w.entries[EndCut(w)..] == w.entries;
  }

  /** Prepending evicts only at the far end: the window is a prefix of the page followed by the old window. */
  lemma {:induction false} PrependKeepsPrefix(w: Window, page: Page)
    requires WellFormed(w) && Merges(w, page)
    ensures var m := PrependCursorPage(w, page);
            && m.trimmedFront == []
            && m.window.entries <= page.entries + w.entries
            && page.entries <= m.window.entries
            && (|w.segments| <= RESIDENT_SEGMENTS ==> |m.window.segments| <= RESIDENT_SEGMENTS)
  {
    if page.entries != [] {
      MergedPrepend(w, page);
      KeepFrontIsPrefix(w.(rollback := page.rollback), page);
    }
  }

  lemma KeepFrontIsPrefix(w: Window, page: Page)
    requires WellFormed(w) && w.loaded
    ensures var r := KeepFront(Prepended(w, page));
            r.entries <= page.entries + w.entries && page.entries <= r.entries && |r.segments| <= RESIDENT_SEGMENTS
  {
    var g := Prepended(w, page);
    assert g.entries == page.entries + w.entries;
    if |g.segments| > RESIDENT_SEGMENTS {
      var cut := g.segments[2].start;
      assert cut >= |page.entries|;
      assert page.entries <= g.entries[..cut];
    } else {
      assert page.entries <= page.entries + w.entries;
    }
  }

  // ---- Applying a page twice ----

  lemma ReplacedHolds(w: Window, page: Page)
    ensures var r := Replace(w, page);
            && r.loaded && !SessionChanged(r.sessionId, page.sessionId) && r.rollback == page.rollback
            && Holds(r, 0, page)
            && r.segments == [SegmentOf(0, page)]
  {
  }

  /** Cutting a window down to its end keeps its last segment, and the rows of it. */
  lemma KeepEndKeepsLast(g: Window)
    requires WellFormed(g) && g.segments != []
    ensures var r, last := KeepEnd(g), g.segments[|g.segments| - 1];
            && r.segments != [] && r.segments[|r.segments| - 1] == last.(start := last.start - EndCut(g))
            && EndCut(g) <= last.start <= |g.entries|
  {
  }

  lemma AppendedHolds(w: Window, page: Page)
    requires WellFormed(w) && w.loaded
    ensures var r := KeepEnd(Appended(w, page)); r.segments != [] && Holds(r, |r.segments| - 1, page)
  {
    var g := Appended(w, page);
    var r, cut := KeepEnd(g), EndCut(g);
    KeepEndKeepsLast(g);
    TailOfSuffix(w.entries, page.entries, cut, r.entries);
  }

  lemma TailOfSuffix<T>(a: seq<T>, b: seq<T>, cut: nat, rest: seq<T>)
    requires cut <= |a| && rest == (a + b)[cut..]
    ensures |rest| == |a| - cut + |b| && rest[|a| - cut..|rest|] == b
  {
  }

  lemma PrependedHolds(w: Window, page: Page)
    requires WellFormed(w) && w.loaded && page.entries != []
    ensures var r := KeepFront(Prepended(w, page)); r.segments != [] && Holds(r, 0, page)
  {
    var g := Prepended(w, page);
    var r := KeepFront(g);
    assert |g.segments| >= 2 && g.segments[1].start == |page.entries|;
    assert SegmentEnd(r, 0) == |page.entries|;
    KeepFrontIsPrefix(w, page);
    assert r.entries[0..|page.entries|] == page.entries;
  }

  /** A page that is resident changes nothing when it arrives again. */
  lemma RepeatIsIgnored(w: Window, page: Page)
    requires WellFormed(w) && w.loaded && !SessionChanged(w.sessionId, page.sessionId) && w.rollback == page.rollback
    requires HasSegment(w, page)
    ensures AppendCursorPage(w, page) == PrependCursorPage(w, page) == Merge(w, 0, [])
  {
  }

  /** The window holds the page, as of its session and rollback point. */
  predicate Settled(w: Window, page: Page) {
    && WellFormed(w) && w.loaded && !SessionChanged(w.sessionId, page.sessionId) && w.rollback == page.rollback
    && HasSegment(w, page)
  }

  lemma {:induction false} AppendSettles(w: Window, page: Page)
    requires WellFormed(w) && page.entries != []
    ensures Settled(AppendCursorPage(w, page).window, page)
  {
    if !w.loaded || SessionChanged(w.sessionId, page.sessionId) {
      ReplacedHolds(w, page);
    } else if Merges(w, page) {
      MergedAppend(w, page);
      AppendedHolds(w.(rollback := page.rollback), page);
    }
  }

  lemma {:induction false} PrependSettles(w: Window, page: Page)
    requires WellFormed(w) && page.entries != []
    ensures Settled(PrependCursorPage(w, page).window, page)
  {
    if !w.loaded || SessionChanged(w.sessionId, page.sessionId) {
      ReplacedHolds(w, page);
    } else if Merges(w, page) {
      MergedPrepend(w, page);
      PrependedHolds(w.(rollback := page.rollback), page);
    }
  }

  /** An empty page only sets the cursors of its end, the second time to what they are. */
  lemma {:induction false} EmptyPageTwice(w: Window, page: Page)
    requires WellFormed(w) && page.entries == []
    ensures var once := AppendCursorPage(w, page).window; AppendCursorPage(once, page) == Merge(once, 0, [])
    ensures var once := PrependCursorPage(w, page).window; PrependCursorPage(once, page) == Merge(once, 0, [])
  {
    if !w.loaded || SessionChanged(w.sessionId, page.sessionId) {
      ReplacedHolds(w, page);
    }
  }

  /** Applying the same page twice is applying it once. */
  lemma {:induction false} AppendTwice(w: Window, page: Page)
    requires WellFormed(w)
    ensures var once := AppendCursorPage(w, page).window;
            AppendCursorPage(once, page) == Merge(once, 0, [])
  {
    if page.entries == [] {
      EmptyPageTwice(w, page);
    } else {
      AppendSettles(w, page);
      RepeatIsIgnored(AppendCursorPage(w, page).window, page);
    }
  }

  lemma {:induction false} PrependTwice(w: Window, page: Page)
    requires WellFormed(w)
    ensures var once := PrependCursorPage(w, page).window;
            PrependCursorPage(once, page) == Merge(once, 0, [])
  {
    if page.entries == [] {
      EmptyPageTwice(w, page);
    } else {
      PrependSettles(w, page);
      RepeatIsIgnored(PrependCursorPage(w, page).window, page);
    }
  }

  // ---- Pages of another session ----

  /** The page is of another session than the window, as far as the window has one. */
  predicate IsForeign(w: Window, page: Page) {
    TrimSpace(w.sessionId) != "" && TrimSpace(w.sessionId) != TrimSpace(page.sessionId)
  }

  /** A page of another session takes the place of the window, and is never taken for what is shown. */
  lemma ForeignPageReplaces(w: Window, page: Page)
    requires WellFormed(w) && IsForeign(w, page)
    ensures AppendCursorPage(w, page) == PrependCursorPage(w, page) == Merge(Replace(w, page), 0, [])
    ensures !MatchesPage(w, page)
  {
  }

  /** A new page with rows of the same session, or for a window without one, is added to the rows there are. */
  lemma OwnPageIsAdded(w: Window, page: Page)
    requires WellFormed(w) && w.loaded && !IsForeign(w, page) && page.entries != []
    requires forall i :: 0 <= i < |w.segments| ==> !Holds(w, i, page)
    ensures AppendCursorPage(w, page).added == PrependCursorPage(w, page).added == |page.entries|
    ensures MatchesPage(w, page) <==> w.entries == page.entries
  {
    var v := w.(rollback := page.rollback);
    forall i | 0 <= i < |v.segments| ensures !Holds(v, i, page) {
      assert !Holds(w, i, page);
    }
  }

  /** The rollback candidate is always that of the last page, kept or not. */
  lemma RollbackFollowsPages(w: Window, page: Page)
    requires WellFormed(w)
    ensures Replace(w, page).rollback == page.rollback
    ensures AppendCursorPage(w, page).window.rollback == PrependCursorPage(w, page).window.rollback == page.rollback
  {
    if Merges(w, page) && page.entries != [] {
      MergedAppend(w, page);
      MergedPrepend(w, page);
    }
  }

  // ---- The mutable window ----

  class TranscriptWindow {
    var sessionId: string
    var entries: seq<Row>
    var loaded: bool
    var olderCursor: Option<int>
    var hasMoreAbove: bool
    var newerCursor: Option<int>
    var hasMoreBelow: bool
    var rollback: Option<nat>
    var segments: seq<Segment>

    function State(): (w: Window)
      reads this
    {
      Window(sessionId, entries, loaded, olderCursor, hasMoreAbove, newerCursor, hasMoreBelow, rollback, segments)
    }

    ghost predicate Valid()
      reads this
    {
      WellFormed(State())
    }

    constructor ()
      ensures State() == EMPTY
    {
      sessionId, entries, loaded, rollback, segments := "", [], false, None, [];
      olderCursor, hasMoreAbove, newerCursor, hasMoreBelow := None, false, None, false;
    }

    method RefreshEdges()
      modifies this
      ensures State() == RefreshBounds(old(State()))
    {
      if |segments| == 0 {
        return;
      }
      var top, bottom := segments[0], segments[|segments| - 1];
      olderCursor := top.olderCursor;
      hasMoreAbove := top.hasMoreAbove;
      newerCursor := bottom.newerCursor;
      hasMoreBelow := bottom.hasMoreBelow;
    }

    method ReplacePage(page: Page)
      modifies this
      ensures State() == Replace(old(State()), page)
    {
      sessionId := TrimSpace(page.sessionId);
      entries := page.entries;
      loaded := true;
      rollback := page.rollback;
      segments := [SegmentOf(0, page)];
      RefreshEdges();
      var front := Trim(|entries|);
    }

    method HoldsPage(page: Page) returns (found: bool)
      requires Valid()
      ensures found == HasSegment(State(), page)
    {
      if |segments| == 0 || |page.entries| == 0 {
        return false;
      }
      var i := 0;
      while i < |segments|
        invariant i <= |segments|
        invariant forall j :: 0 <= j < i ==> !Holds(State(), j, page)
      {
        var segment := segments[i];
        if SegmentOf(segment.start, page) == segment {
          var end := if i + 1 < |segments| then segments[i + 1].start else |entries|;
          if end - segment.start == |page.entries| {
            var matches := SameRows(segment.start, page.entries);
            if matches {
              assert Holds(State(), i, page);
              return true;
            }
          }
        }
        i := i + 1;
      }
      found := false;
    }

    method SameRows(start: nat, rows: seq<Row>) returns (same: bool)
      requires start + |rows| <= |entries|
      ensures same == (entries[start..start + |rows|] == rows)
    {
      var i := 0;
      while i < |rows|
        invariant i <= |rows|
        invariant forall j :: 0 <= j < i ==> entries[start + j] == rows[j]
      {
        if entries[start + i] != rows[i] {
          assert entries[start..start + |rows|][i] != rows[i];
          return false;
        }
        i := i + 1;
      }
      same := true;
    }

    method Matches(page: Page) returns (same: bool)
      ensures same == MatchesPage(State(), page)
    {
      if !loaded || SessionChanged(sessionId, page.sessionId) || |entries| != |page.entries| {
        return false;
      }
      same := SameRows(0, page.entries);
      assert entries[0..|entries|] == entries;
    }

    method RefreshFrom(page: Page)
      modifies this
      ensures State() == RefreshEdgeCursors(old(State()), page)
    {
      if |segments| == 0 {
        return;
      }
      segments := segments[0 := segments[0].(olderCursor := page.olderCursor, hasMoreAbove := page.hasMoreAbove)];
      var last := |segments| - 1;
      segments := segments[last := segments[last].(newerCursor := page.newerCursor, hasMoreBelow := page.hasMoreBelow)];
      rollback := page.rollback;
      RefreshEdges();
    }

    /** Cuts the window down to two segments around a row; returns the rows evicted at the front. */
    method Trim(anchorLocal: nat) returns (front: seq<Row>)
      requires Valid()
      modifies this
      ensures (State(), front) == TrimToSegments(old(State()), anchorLocal)
    {
      front := [];
      if |segments| <= RESIDENT_SEGMENTS {
        return;
      }
      var local := if anchorLocal > |entries| then |entries| else anchorLocal;
      var anchor := FindAnchor(segments, local);
      var left := EvictFarSegments(entries, segments, anchor);
      entries, segments, front := left.entries, left.segments, left.front;
      RefreshEdges();
    }

    static method EvictFarSegments(entries: seq<Row>, segments: seq<Segment>, anchor: nat) returns (r: Resident)
      requires Cut(entries, segments) && anchor < |segments|
      ensures r == Evict(Resident(entries, segments, []), anchor)
    {
      r := Resident(entries, segments, []);
      var k: nat := anchor;
      ghost var goal := Evict(r, anchor);
      while |r.segments| > RESIDENT_SEGMENTS
        invariant Cut(r.entries, r.segments) && k < |r.segments|
        invariant Evict(r, k) == goal
        decreases |r.segments|
      {
        var last := |r.segments| - 1;
        if last - k >= k && k != last {
          r := DropLast(r);
        } else {
          r := DropFirst(r);
          k := k - 1;
        }
      }
    }

    static method FindAnchor(segments: seq<Segment>, local: nat) returns (anchor: nat)
      requires segments != [] && segments[0].start <= local
      ensures anchor == AnchorSegment(segments, local)
    {
      anchor := 0;
      while anchor + 1 < |segments| && segments[anchor + 1].start <= local
        invariant anchor < |segments| && segments[anchor].start <= local
        invariant anchor + AnchorSegment(segments[anchor..], local) == AnchorSegment(segments, local)
      {
        assert segments[anchor..][1..] == segments[anchor + 1..];
        anchor := anchor + 1;
      }
    }

    method Prepend(page: Page) returns (added: nat, front: seq<Row>)
      requires Valid()
      modifies this
      ensures Merge(State(), added, front) == PrependCursorPage(old(State()), page)
    {
      added, front := 0, [];
      if !loaded || SessionChanged(sessionId, page.sessionId) {
        ReplacePage(page);
        return;
      }
      rollback := page.rollback;
      ghost var v := State();
      var resident := HoldsPage(page);
      if resident {
        return;
      }
      if |page.entries| == 0 {
        segments := segments[0 := segments[0].(olderCursor := page.olderCursor, hasMoreAbove := page.hasMoreAbove)];
        RefreshEdges();
        return;
      }
      entries := page.entries + entries;
      segments := [SegmentOf(0, page)] + RaiseStarts(segments, |page.entries|);
      RefreshEdges();
      assert State() == Prepended(v, page);
      front := Trim(0);
      added := |page.entries|;
    }

    method Append(page: Page) returns (added: nat, front: seq<Row>)
      requires Valid()
      modifies this
      ensures Merge(State(), added, front) == AppendCursorPage(old(State()), page)
    {
      added, front := 0, [];
      if !loaded || SessionChanged(sessionId, page.sessionId) {
        ReplacePage(page);
        return;
      }
      rollback := page.rollback;
      ghost var v := State();
      var resident := HoldsPage(page);
      if resident {
        return;
      }
      if |page.entries| == 0 {
        var last := |segments| - 1;
        segments := segments[last := segments[last].(newerCursor := page.newerCursor, hasMoreBelow := page.hasMoreBelow)];
        RefreshEdges();
        return;
      }
      segments := segments + [SegmentOf(|entries|, page)];
      entries := entries + page.entries;
      RefreshEdges();
      assert State() == Appended(v, page);
      front := Trim(|entries|);
      added := |page.entries|;
    }
  }
}
