/** What holds in every run of the workspace picker. */
module WorkspaceRuns {
  import opened Prelude
  import opened PageWindow
  import opened WorkspacePicker
  import Viewport = PickerViewport

  // --- Rows keep their names ---

  predicate DistinctPages(segments: seq<Segment>) {
    forall i, j :: 0 <= i < j < |segments| ==> segments[i].generation != segments[j].generation
  }

  /** The occurrence taken at an index is found again at that index. */
  lemma {:induction false} OccurrenceRoundTrip(segments: seq<Segment>, index: nat)
    requires DistinctPages(segments) && index < |Rows(segments)|
    ensures FoundAt(OccurrenceAt(segments, index), segments, index)
    decreases |segments|
  {
    var first := |segments[0].workspaces|;
    if index >= first {
      var o := OccurrenceAt(segments[1..], index - first).value;
      OccurrenceRoundTrip(segments[1..], index - first);
      FoundWhenNamed(o, segments[1..]);
      var k :| 0 <= k < |segments[1..]| && Names(o, segments[1..][k]);
      assert segments[1..][k] == segments[k + 1];
    }
  }

  /** An occurrence leads to the row it names, whatever pages surround the page it is on. */
  lemma {:induction false} OccurrenceLeadsToRow(o: Occurrence, segments: seq<Segment>, k: nat)
    requires DistinctPages(segments) && k < |segments| && Names(o, segments[k])
    ensures IndexOf(o, segments).Some?
    ensures Rows(segments)[IndexOf(o, segments).value] == segments[k].workspaces[o.index]
    decreases |segments|
  {
    if k > 0 {
      OccurrenceLeadsToRow(o, segments[1..], k - 1);
      assert segments[1..][k - 1] == segments[k];
    }
  }

  lemma ContiguousIsDistinct(segments: seq<Segment>, generation: nat)
    requires Contiguous(segments, generation)
    ensures DistinctPages(segments)
    ensures segments != [] ==> Rows(segments) != []
  {
  }

  // --- Moving the cursor ---

  lemma EnsureVisibleAnchors(p: Picker, status: bool)
    requires DistinctPages(p.segments) && FoundAt(p.selected, p.segments, p.cursor)
    ensures Anchored(EnsureVisible(p, status))
    ensures EnsureVisible(p, status).cursor == p.cursor
  {
    OccurrenceRoundTrip(p.segments, EnsureVisible(p, status).offset);
  }

  lemma SelectIndexAnchors(p: Picker, index: int, status: bool)
    requires DistinctPages(p.segments) && 0 <= index < |Rows(p.segments)|
    ensures Anchored(SelectIndex(p, index, status))
    ensures SelectIndex(p, index, status).cursor == index
  {
    OccurrenceRoundTrip(p.segments, index);
    EnsureVisibleAnchors(p.(cursor := index, selected := OccurrenceAt(p.segments, index)), status);
  }

  lemma ContiguousLater(segments: seq<Segment>, generation: nat)
    requires Contiguous(segments, generation)
    ensures Contiguous(segments, generation + 1)
  {
    forall i | 0 <= i < |segments| ensures GoodSegment(segments[i], generation + 1) {
      assert GoodSegment(segments[i], generation);
    }
  }

  /** A new request toward an edge leaves the paging sound. */
  lemma BeginIsSound(g: Paging, segments: seq<Segment>, d: Direction, i: Intent)
    requires PagingSound(g, segments) && d != Initial && RequestFor(g, d).None? && MoveFits(Issued(g, d, i))
    ensures PagingSound(Begin(g, d, i), segments)
    ensures EdgeOf(Begin(g, d, i), d).state == Loading
  {
    ContiguousLater(segments, g.generation);
    forall k | 0 <= k < |segments| ensures segments[k].generation != g.generation + 1 {
      assert GoodSegment(segments[k], g.generation);
    }
  }

  predicate PageMoveIsPast(p: Picker, d: Direction, pageMove: bool, visible: int) {
    d == Previous && pageMove ==> visible >= 1 && p.cursor - visible < 0
  }

  /** Only the paging differs, and it is sound with that edge loading or known to be the end. */
  predicate OnlyAsked(p: Picker, q: Picker, d: Direction)
    requires d != Initial
  {
    && q == p.(paging := q.paging)
    && PagingSound(q.paging, p.segments)
    && q.paging.request == p.paging.request
    && EdgeOf(q.paging, d).state in {Loading, Exhausted}
    && (FailurePhase(q.paging) == ReadyWithEdgeFailure ==> FailurePhase(p.paging) == ReadyWithEdgeFailure)
  }

  lemma BegunIsAsked(p: Picker, d: Direction, i: Intent)
    requires PagingSound(p.paging, p.segments) && d != Initial && EdgeOf(p.paging, d).request.None?
    requires MoveFits(Issued(p.paging, d, i))
    ensures OnlyAsked(p, p.(paging := Begin(p.paging, d, i)), d)
  {
    BeginIsSound(p.paging, p.segments, d, i);
  }

  lemma EndedIsAsked(p: Picker, d: Direction)
    requires PagingSound(p.paging, p.segments) && d != Initial && EdgeOf(p.paging, d).request.None?
    ensures OnlyAsked(p, p.(paging := WithEdge(p.paging, d, EdgeOf(p.paging, d).(state := Exhausted))), d)
  {
  }

  lemma RetryIsAsked(p: Picker, d: Direction, crossing: bool, pageMove: bool, visible: int, overflow: int)
    requires PagingSound(p.paging, p.segments) && p.segments != [] && d != Initial
    requires EdgeOf(p.paging, d).request.None? && EdgeOf(p.paging, d).state == Failed
    requires d == Previous && pageMove ==> overflow < 0
    ensures OnlyAsked(p, RetryEdge(p, d, crossing, pageMove, visible, overflow), d)
  {
    var failed := EdgeOf(p.paging, d).failedRequest.value;
    var offset := EdgeOffset(p.segments, d).value;
    BegunIsAsked(p, d, Intent(offset, BoundaryOf(p.segments, d), crossing, pageMove,
                              if visible < 1 then failed.visibleDistance else visible, overflow, failed.move));
  }

  /** Asking for a page changes only the paging, and leaves that edge loading or known to be the end. */
  lemma RequestEdgePages(p: Picker, d: Direction, crossing: bool, pageMove: bool, visible: int)
    requires PagingSound(p.paging, p.segments) && p.segments != [] && d != Initial
    requires PageMoveIsPast(p, d, pageMove, visible)
    ensures OnlyAsked(p, RequestEdge(p, d, crossing, pageMove, visible), d)
  {
    var edge := EdgeOf(p.paging, d);
    if edge.request.None? && edge.state != Exhausted {
      var overflow := PageMoveOverflow(p, d, pageMove, visible);
      var offset := EdgeOffset(p.segments, d);
      if edge.state == Failed {
        RetryIsAsked(p, d, crossing, pageMove, visible, overflow);
      } else if offset.None? {
        EndedIsAsked(p, d);
      } else {
        BegunIsAsked(p, d, Intent(offset.value, BoundaryOf(p.segments, d), crossing, pageMove, visible, overflow, 0));
      }
    }
  }

  lemma RequestEdgeIsSound(p: Picker, d: Direction, crossing: bool, pageMove: bool, visible: int)
    requires Sound(p) && ReadyPhase(p.phase) && d != Initial
    requires PageMoveIsPast(p, d, pageMove, visible)
    ensures Sound(RequestEdge(p, d, crossing, pageMove, visible))
    ensures RequestEdge(p, d, crossing, pageMove, visible).segments == p.segments
  {
    RequestEdgePages(p, d, crossing, pageMove, visible);
  }

  lemma SelectIsSound(p: Picker, index: int, status: bool)
    requires Sound(p) && ReadyPhase(p.phase) && 0 <= index < |Rows(p.segments)|
    ensures Sound(SelectIndex(p, index, status))
    ensures var q := SelectIndex(p, index, status);
            q == p.(cursor := index, selected := q.selected, offset := q.offset, viewport := q.viewport)
  {
    ContiguousIsDistinct(p.segments, p.paging.generation);
    SelectIndexAnchors(p, index, status);
  }

  lemma PrefetchIsSound(p: Picker, delta: int, status: bool)
    requires Sound(p) && ReadyPhase(p.phase)
    ensures Sound(Prefetch(p, delta, status)) && Prefetch(p, delta, status).segments == p.segments
  {
    var q := Prefetch(p, delta, status);
    if delta < 0 && q != p {
      RequestEdgeIsSound(p, Previous, false, false, 0);
    } else if delta > 0 && q != p {
      RequestEdgeIsSound(p, Next, false, false, 0);
    }
  }

  lemma MoveIsSound(p: Picker, delta: int, pageMove: bool, distance: int, status: bool)
    requires Sound(p) && ReadyPhase(p.phase)
    requires pageMove ==> distance >= 1
    ensures Sound(MoveBy(p, delta, pageMove, distance, status))
    ensures MoveBy(p, delta, pageMove, distance, status).segments == p.segments
  {
    var next := Target(p, delta, pageMove, distance);
    if 0 <= next < |Rows(p.segments)| {
      SelectIsSound(p, next, status);
      PrefetchIsSound(SelectIndex(p, next, status), delta, status);
    } else {
      var d := if delta > 0 then Next else Previous;
      var visible := if pageMove then distance else 0;
      assert PageMoveIsPast(p, d, pageMove, visible);
      RequestEdgeIsSound(p, d, true, pageMove, visible);
    }
  }

  lemma ResizeIsSound(p: Picker, status: bool)
    requires Sound(p)
    ensures Sound(EnsureVisible(p, status)) && EnsureVisible(p, status).segments == p.segments
  {
    ContiguousIsDistinct(p.segments, p.paging.generation);
    if ReadyPhase(p.phase) {
      EnsureVisibleAnchors(p, status);
    }
  }

  lemma StartIsSound(p: Picker)
    requires Sound(p) && !ReadyPhase(p.phase)
    ensures Sound(StartInitial(p)) && StartInitial(p).segments == p.segments
  {
  }

  // --- Answers ---

  lemma FirstPageIsSound(p: Picker, r: Request, a: Answer, status: bool)
    requires Sound(p) && Active(p.paging, r) && r.direction == Initial && Usable(a, p.project, r.offset)
    ensures Sound(FirstPage(p, r, SegmentFrom(r, a.response.value), status))
  {
    var s := SegmentFrom(r, a.response.value);
    if |s.workspaces| > 1 || s.nextOffset.Some? {
      assert Rows([s]) == s.workspaces;
      var done := p.(paging := Complete(p.paging, r), segments := [s]);
      SelectIndexAnchors(done, 0, status);
      assert GoodSegment(s, p.paging.generation);
    }
  }

  /** Reconciling an edge with the page list makes it sound, whatever its state was. */
  lemma SyncedEdgeIsSound(e: Edge, segments: seq<Segment>, d: Direction)
    requires segments != [] && d != Initial
    requires e.state == Loading <==> e.request.Some?
    requires e.request.Some? ==> MoveFits(e.request.value)
    requires e.state == Failed ==> e.failedRequest.Some? && e.failedRequest.value.direction == d
    ensures EdgeSound(SyncEdge(e, segments, d), segments, d)
    ensures SyncEdge(e, segments, d).request == e.request
  {
  }

  lemma StaleIsSound(p: Picker, r: Request)
    requires Sound(p) && ReadyPhase(p.phase) && Active(p.paging, r) && r.direction != Initial
    ensures Sound(StalePage(p, r))
    ensures StalePage(p, r) == p.(paging := StalePage(p, r).paging, phase := StalePage(p, r).phase)
  {
    var done := Settled(p.(paging := Complete(p.paging, r)), r.direction, Unknown).paging;
    SyncedEdgeIsSound(done.previousEdge, p.segments, Previous);
    SyncedEdgeIsSound(done.nextEdge, p.segments, Next);
  }

  lemma FailIsSound(p: Picker, r: Request)
    requires Sound(p) && Active(p.paging, r)
    requires r.direction != Initial ==> ReadyPhase(p.phase) && BoundaryMatches(p.segments, r)
    ensures Sound(FailPage(p, r))
  {
  }

  lemma EmptyEdgeIsSound(p: Picker, r: Request)
    requires Sound(p) && ReadyPhase(p.phase) && Active(p.paging, r) && r.direction != Initial
    ensures Sound(EmptyEdge(p, r))
  {
  }

  lemma PairIsContiguous(a: Segment, b: Segment, generation: nat)
    requires GoodSegment(a, generation) && GoodSegment(b, generation)
    requires b.offset == a.offset + PAGE_SIZE && a.generation != b.generation
    ensures Contiguous([a, b], generation)
  {
  }

  lemma AppendIsContiguous(segments: seq<Segment>, last: Segment, generation: nat, s: Segment)
    requires 1 <= |segments| <= RESIDENT_PAGE_LIMIT && last == segments[|segments| - 1]
    requires GoodSegment(last, generation) && GoodSegment(s, generation)
    requires s.offset == last.offset + PAGE_SIZE && last.generation != s.generation
    ensures Contiguous(AppendBounded(segments, s), generation)
  {
    NewPageAndNeighbour(segments, s);
    PairIsContiguous(last, s, generation);
  }

  lemma PrependIsContiguous(segments: seq<Segment>, first: Segment, generation: nat, s: Segment)
    requires 1 <= |segments| <= RESIDENT_PAGE_LIMIT && first == segments[0]
    requires GoodSegment(first, generation) && GoodSegment(s, generation)
    requires first.offset == s.offset + PAGE_SIZE && first.generation != s.generation
    ensures Contiguous(PrependBounded(segments, s), generation)
  {
    NewPageAndNeighbour(segments, s);
    PairIsContiguous(s, first, generation);
  }

  lemma ExpectedOffsetIsGood(segments: seq<Segment>, generation: nat, r: Request)
    requires Contiguous(segments, generation) && BoundaryMatches(segments, r)
    ensures r.offset >= 0 && r.offset % PAGE_SIZE == 0
    ensures r.direction == Previous ==> segments[0].offset == r.offset + PAGE_SIZE
    ensures r.direction == Next ==> segments[|segments| - 1].nextOffset == Some(r.offset)
  {
    assert GoodSegment(segments[0], generation) && GoodSegment(segments[|segments| - 1], generation);
  }

  predicate AnswersRequest(s: Segment, r: Request) {
    && s.generation == r.generation && s.offset == r.offset && s.workspaces != []
    && (s.nextOffset.Some? ==> s.nextOffset.value == s.offset + PAGE_SIZE)
  }

  /** A page that fits the boundary continues the list on its side. */
  lemma CandidateIsContiguous(g: Paging, segments: seq<Segment>, r: Request, s: Segment)
    requires PagingSound(g, segments) && Active(g, r) && r.direction != Initial
    requires BoundaryMatches(segments, r) && AnswersRequest(s, r)
    ensures Contiguous(Candidate(segments, r.direction, s), g.generation)
  {
    ExpectedOffsetIsGood(segments, g.generation, r);
    assert GoodSegment(s, g.generation);
    var first, last := segments[0], segments[|segments| - 1];
    assert GoodSegment(first, g.generation) && GoodSegment(last, g.generation);
    if r.direction == Next {
      AppendIsContiguous(segments, last, g.generation, s);
    } else {
      PrependIsContiguous(segments, first, g.generation, s);
    }
  }

  lemma CandidateIsUnanswered(segments: seq<Segment>, d: Direction, s: Segment, slot: Option<Request>)
    requires 1 <= |segments| <= RESIDENT_PAGE_LIMIT
    requires Unanswered(segments, slot) && (slot.Some? ==> slot.value.generation != s.generation)
    ensures Unanswered(Candidate(segments, d, s), slot)
  {
    NewPageAndNeighbour(segments, s);
  }

  lemma RejectedIsSound(p: Picker, r: Request)
    requires Sound(p) && ReadyPhase(p.phase) && Active(p.paging, r) && r.direction != Initial
    requires BoundaryMatches(p.segments, r)
    ensures Sound(Rejected(p, r))
  {
  }

  lemma PagingAfterIsSound(g: Paging, segments: seq<Segment>, r: Request, s: Segment, candidate: seq<Segment>)
    requires PagingSound(g, segments) && Active(g, r) && r.direction != Initial
    requires BoundaryMatches(segments, r) && AnswersRequest(s, r)
    requires candidate == Candidate(segments, r.direction, s)
    ensures PagingSound(PagingAfter(g, r, s, candidate), candidate)
    ensures PagingAfter(g, r, s, candidate).request == g.request
  {
    CandidateIsContiguous(g, segments, r, s);
    var done := Complete(g, r);
    CandidateIsUnanswered(segments, r.direction, s, done.nextEdge.request);
    CandidateIsUnanswered(segments, r.direction, s, done.previousEdge.request);
    var state := if (if r.direction == Next then s.nextOffset.None? else s.offset == 0) then Exhausted else Unknown;
    var settled := WithEdge(done, r.direction, EdgeOf(done, r.direction).(state := state));
    SyncedEdgeIsSound(settled.previousEdge, candidate, Previous);
    SyncedEdgeIsSound(settled.nextEdge, candidate, Next);
  }

  lemma LandingIsFound(r: Request, s: Segment, candidate: seq<Segment>)
    requires r.direction != Initial && s.workspaces != [] && MoveFits(r) && s in candidate
    ensures IndexOf(OccurrenceIn(s, LandingRow(r, |s.workspaces|)), candidate).Some?
  {
    var k :| 0 <= k < |candidate| && candidate[k] == s;
    assert Names(OccurrenceIn(s, LandingRow(r, |s.workspaces|)), candidate[k]);
    FoundWhenNamed(OccurrenceIn(s, LandingRow(r, |s.workspaces|)), candidate);
  }

  /** Remapping puts the cursor and the top of the screen back on the rows they were on. */
  lemma RemappedIsAnchored(p: Picker, status: bool)
    requires p.selected.Some? && p.viewport.Some?
    requires Resident(p.selected, p.segments) && Resident(p.viewport, p.segments)
    ensures Anchored(Remapped(p, status))
    ensures var q := Remapped(p, status); q == p.(cursor := q.cursor, offset := q.offset)
  {
  }

  lemma InstallAnchors(p: Picker, r: Request, s: Segment, candidate: seq<Segment>, status: bool)
    requires Anchored(p) && r.direction != Initial && s.workspaces != [] && MoveFits(r)
    requires DistinctPages(candidate) && s in candidate
    requires Resident(p.selected, candidate) && Resident(p.viewport, candidate)
    ensures var grown := Grown(p, r, s, candidate);
            var mapped := Remapped(grown, status);
            var q := if r.crossing then EnsureVisible(mapped, status) else mapped;
            && Anchored(q)
            && q == grown.(cursor := q.cursor, offset := q.offset, viewport := q.viewport)
            && (!r.crossing ==> q.viewport == p.viewport)
  {
    LandingIsFound(r, s, candidate);
    var grown := Grown(p, r, s, candidate);
    RemappedIsAnchored(grown, status);
    if r.crossing {
      EnsureVisibleAnchors(Remapped(grown, status), status);
    }
  }

  lemma InstallIsSound(p: Picker, r: Request, s: Segment, status: bool)
    requires Sound(p) && ReadyPhase(p.phase) && Active(p.paging, r) && r.direction != Initial && MoveFits(r)
    requires BoundaryMatches(p.segments, r) && AnswersRequest(s, r)
    ensures Sound(Install(p, r, s, status))
  {
    var candidate := Candidate(p.segments, r.direction, s);
    if !Resident(p.selected, candidate) || !Resident(p.viewport, candidate) {
      RejectedIsSound(p, r);
    } else {
      PagingAfterIsSound(p.paging, p.segments, r, s, candidate);
      ContiguousIsDistinct(candidate, PagingAfter(p.paging, r, s, candidate).generation);
      InstallAnchors(p, r, s, candidate, status);
    }
  }

  // --- Every step, every run ---

  lemma ArriveIsSound(p: Picker, r: Request, a: Answer, status: bool)
    requires Sound(p) && Active(p.paging, r)
    ensures MoveFits(r) && Sound(PageLoaded(p, r, a, status))
  {
    if r.direction == Initial {
      if Usable(a, p.project, r.offset) {
        FirstPageIsSound(p, r, a, status);
      } else {
        FailIsSound(p, r);
      }
    } else if !BoundaryMatches(p.segments, r) {
      StaleIsSound(p, r);
    } else if !Usable(a, p.project, r.offset) {
      FailIsSound(p, r);
    } else if a.response.value.workspaces == [] {
      EmptyEdgeIsSound(p, r);
    } else {
      InstallIsSound(p, r, SegmentFrom(r, a.response.value), status);
    }
  }

  lemma KeyIsSound(p: Picker, delta: int, status: bool)
    requires Sound(p)
    ensures Sound(MoveCursor(p, delta, status)) && MoveCursor(p, delta, status).segments == p.segments
    ensures Sound(MovePage(p, delta, status)) && MovePage(p, delta, status).segments == p.segments
  {
    if ReadyPhase(p.phase) {
      MoveIsSound(p, delta, false, 0, status);
      MoveIsSound(p, delta, true, PageDistance(p, status), status);
    }
  }

  lemma HeightIsSound(p: Picker, height: int)
    requires Sound(p)
    ensures Sound(p.(height := height))
  {
  }

  lemma StepIsSound(p: Picker, action: Action)
    requires Sound(p)
    ensures Sound(Step(p, action))
  {
    match action
    case ArrowUp(status) => KeyIsSound(p, -1, status);
    case ArrowDown(status) => KeyIsSound(p, 1, status);
    case PageUp(status) => KeyIsSound(p, -1, status);
    case PageDown(status) => KeyIsSound(p, 1, status);
    case PressEnter => if !ReadyPhase(p.phase) { StartIsSound(p); }
    case Resize(height, status) =>
      HeightIsSound(p, height);
      ResizeIsSound(if height > 0 then p.(height := height) else p, status);
    case Arrive(r, a, status) => if Active(p.paging, r) { ArriveIsSound(p, r, a, status); }
  }

  function Run(p: Picker, actions: seq<Action>): (q: Picker)
    requires Sound(p)
    ensures Sound(q)
    decreases |actions|
  {
    if actions == [] then p
    else
      StepIsSound(p, actions[0]);
      Run(Step(p, actions[0]), actions[1..])
  }

  /**
   From opening the picker on, through any interleaving of keys, resizes and answers, stale, failed or late: at most two
   pages are resident, at consecutive offsets; while it is ready the cursor is on the selected row and the top of the
   screen on the remembered one; and a failed edge shows as such.
   */
  lemma EveryRunStaysContiguous(project: string, height: int, actions: seq<Action>)
    ensures Sound(Opened(project, height))
    ensures var q := Run(Opened(project, height), actions);
            && |q.segments| <= 2
            && (|q.segments| == 2 ==> q.segments[1].offset == q.segments[0].offset + PAGE_SIZE)
            && (ReadyPhase(q.phase) ==>
                  && FoundAt(q.selected, q.segments, q.cursor) && FoundAt(q.viewport, q.segments, q.offset)
                  && q.cursor < |Rows(q.segments)| && Rows(q.segments)[q.cursor].id == q.selected.value.workspace)
            && (q.paging.nextEdge.state == Failed || q.paging.previousEdge.state == Failed ==> q.phase == ReadyWithEdgeFailure)
  {
    assert Sound(Opened(project, height));
    var q := Run(Opened(project, height), actions);
    assert Sound(q);
  }

  // --- What an answer may change ---

  /** The answer puts its page in: it is the one awaited, still fits, is usable, and keeps the user's rows resident. */
  predicate Takes(p: Picker, r: Request, a: Answer) {
    && Active(p.paging, r) && Usable(a, p.project, r.offset) && a.response.value.workspaces != []
    && var s := SegmentFrom(r, a.response.value);
       if r.direction == Initial then |s.workspaces| > 1 || s.nextOffset.Some?
       else
         && BoundaryMatches(p.segments, r)
         && Resident(p.selected, Candidate(p.segments, r.direction, s))
         && Resident(p.viewport, Candidate(p.segments, r.direction, s))
  }

  lemma CandidateIsNew(segments: seq<Segment>, d: Direction, s: Segment)
    requires forall i :: 0 <= i < |segments| ==> segments[i].generation != s.generation
    ensures Candidate(segments, d, s) != segments
  {
    var c := Candidate(segments, d, s);
    assert s in c;
  }

  lemma InstallPages(p: Picker, r: Request, s: Segment, status: bool)
    requires Anchored(p) && r.direction != Initial && s.workspaces != [] && MoveFits(r)
    requires DistinctPages(Candidate(p.segments, r.direction, s))
    ensures var candidate := Candidate(p.segments, r.direction, s);
            Install(p, r, s, status).segments ==
            (if Resident(p.selected, candidate) && Resident(p.viewport, candidate) then candidate else p.segments)
  {
    var candidate := Candidate(p.segments, r.direction, s);
    if Resident(p.selected, candidate) && Resident(p.viewport, candidate) {
      InstallAnchors(p, r, s, candidate, status);
    }
  }

  lemma TakesDirectional(p: Picker, r: Request, a: Answer, status: bool)
    requires Sound(p) && ReadyPhase(p.phase) && Active(p.paging, r) && r.direction != Initial && MoveFits(r)
    requires BoundaryMatches(p.segments, r) && Usable(a, p.project, r.offset) && a.response.value.workspaces != []
    ensures PageLoaded(p, r, a, status).segments ==
            (if Takes(p, r, a) then Candidate(p.segments, r.direction, SegmentFrom(r, a.response.value)) else p.segments)
    ensures Candidate(p.segments, r.direction, SegmentFrom(r, a.response.value)) != p.segments
  {
    var s := SegmentFrom(r, a.response.value);
    CandidateIsNew(p.segments, r.direction, s);
    CandidateIsContiguous(p.paging, p.segments, r, s);
    ContiguousIsDistinct(Candidate(p.segments, r.direction, s), p.paging.generation);
    InstallPages(p, r, s, status);
  }

  lemma TakesFirst(p: Picker, r: Request, a: Answer, status: bool)
    requires Sound(p) && Active(p.paging, r) && r.direction == Initial
    ensures PageLoaded(p, r, a, status).segments ==
            (if Takes(p, r, a) then [SegmentFrom(r, a.response.value)] else [])
    ensures p.segments == []
  {
  }

  /** The resident pages change exactly when an answer is taken, and then by its page alone. */
  lemma AnswerChangesPages(p: Picker, r: Request, a: Answer, status: bool)
    requires Sound(p)
    ensures (Active(p.paging, r) ==> MoveFits(r))
    ensures Takes(p, r, a) <==> PageLoaded(p, r, a, status).segments != p.segments
    ensures Takes(p, r, a) ==>
              PageLoaded(p, r, a, status).segments ==
              (if r.direction == Initial then [SegmentFrom(r, a.response.value)]
               else Candidate(p.segments, r.direction, SegmentFrom(r, a.response.value)))
  {
    if Active(p.paging, r) {
      if r.direction == Initial {
        TakesFirst(p, r, a, status);
      } else if !BoundaryMatches(p.segments, r) {
        StaleIsSound(p, r);
      } else if Usable(a, p.project, r.offset) && a.response.value.workspaces != [] {
        TakesDirectional(p, r, a, status);
      }
    }
  }

  /** Nothing but a taken answer changes the resident pages. */
  lemma OnlyAnswersChangePages(p: Picker, action: Action)
    requires Sound(p) && !action.Arrive?
    ensures Step(p, action).segments == p.segments
  {
    match action
    case ArrowUp(status) => KeyIsSound(p, -1, status);
    case ArrowDown(status) => KeyIsSound(p, 1, status);
    case PageUp(status) => KeyIsSound(p, -1, status);
    case PageDown(status) => KeyIsSound(p, 1, status);
    case PressEnter =>
    case Resize(height, status) =>
  }

  // --- Background loads never move the user ---

  lemma SameRow(o: Occurrence, before: seq<Segment>, after: seq<Segment>)
    requires DistinctPages(before) && DistinctPages(after)
    requires IndexOf(o, before).Some? && IndexOf(o, after).Some?
    requires forall i, j :: 0 <= i < |before| && 0 <= j < |after| && Names(o, before[i]) && Names(o, after[j]) ==>
                              before[i] == after[j]
    ensures Rows(before)[IndexOf(o, before).value] == Rows(after)[IndexOf(o, after).value]
  {
    FoundWhenNamed(o, before);
    FoundWhenNamed(o, after);
    var i :| 0 <= i < |before| && Names(o, before[i]);
    var j :| 0 <= j < |after| && Names(o, after[j]);
    OccurrenceLeadsToRow(o, before, i);
    OccurrenceLeadsToRow(o, after, j);
  }

  /** A row resident before and after a page is taken is the same row. */
  lemma CandidateKeepsRow(o: Occurrence, segments: seq<Segment>, d: Direction, s: Segment)
    requires DistinctPages(segments) && DistinctPages(Candidate(segments, d, s))
    requires IndexOf(o, segments).Some? && IndexOf(o, Candidate(segments, d, s)).Some?
    requires forall i :: 0 <= i < |segments| ==> segments[i].generation != s.generation
    ensures Rows(segments)[IndexOf(o, segments).value] ==
            Rows(Candidate(segments, d, s))[IndexOf(o, Candidate(segments, d, s)).value]
  {
    var after := Candidate(segments, d, s);
    forall i, j | 0 <= i < |segments| && 0 <= j < |after| && Names(o, segments[i]) && Names(o, after[j])
      ensures segments[i] == after[j]
    {
      assert after[j] == s || after[j] in segments;
    }
    SameRow(o, segments, after);
  }

  /** The same rows are selected and on top. */
  predicate SamePlace(p: Picker, q: Picker) {
    && q.selected == p.selected && q.viewport == p.viewport
    && 0 <= q.cursor < |Rows(q.segments)| && q.offset < |Rows(q.segments)|
    && 0 <= p.cursor < |Rows(p.segments)| && p.offset < |Rows(p.segments)|
    && Rows(q.segments)[q.cursor] == Rows(p.segments)[p.cursor]
    && Rows(q.segments)[q.offset] == Rows(p.segments)[p.offset]
  }

  lemma UnmovedIsSamePlace(p: Picker, q: Picker)
    requires Anchored(p) && q == p.(paging := q.paging, phase := q.phase)
    ensures SamePlace(p, q)
  {
  }

  lemma GrownIsSamePlace(p: Picker, q: Picker, d: Direction, s: Segment)
    requires Anchored(p) && Anchored(q) && q.selected == p.selected && q.viewport == p.viewport
    requires q.segments == Candidate(p.segments, d, s) && DistinctPages(p.segments) && DistinctPages(q.segments)
    requires forall i :: 0 <= i < |p.segments| ==> p.segments[i].generation != s.generation
    ensures SamePlace(p, q)
  {
    CandidateKeepsRow(p.selected.value, p.segments, d, s);
    CandidateKeepsRow(p.viewport.value, p.segments, d, s);
  }

  /** The page is taken: what the picker becomes. */
  lemma Installed(p: Picker, r: Request, s: Segment, candidate: seq<Segment>, status: bool)
    requires Sound(p) && ReadyPhase(p.phase) && Active(p.paging, r) && r.direction != Initial && MoveFits(r)
    requires BoundaryMatches(p.segments, r) && AnswersRequest(s, r) && candidate == Candidate(p.segments, r.direction, s)
    requires Resident(p.selected, candidate) && Resident(p.viewport, candidate)
    ensures var q := Install(p, r, s, status);
            && q.segments == candidate && Anchored(q) && DistinctPages(candidate) && ReadyPhase(q.phase)
            && (!r.crossing ==> q.selected == p.selected && q.viewport == p.viewport)
            && (r.crossing ==> q.selected == Some(OccurrenceIn(s, LandingRow(r, |s.workspaces|))))
  {
    PagingAfterIsSound(p.paging, p.segments, r, s, candidate);
    ContiguousIsDistinct(candidate, PagingAfter(p.paging, r, s, candidate).generation);
    InstallAnchors(p, r, s, candidate, status);
  }

  lemma InstallKeepsPlace(p: Picker, r: Request, s: Segment, status: bool)
    requires Sound(p) && ReadyPhase(p.phase) && Active(p.paging, r) && r.direction != Initial && MoveFits(r)
    requires BoundaryMatches(p.segments, r) && AnswersRequest(s, r) && !r.crossing
    ensures SamePlace(p, Install(p, r, s, status)) && ReadyPhase(Install(p, r, s, status).phase)
  {
    var candidate := Candidate(p.segments, r.direction, s);
    ContiguousIsDistinct(p.segments, p.paging.generation);
    if Resident(p.selected, candidate) && Resident(p.viewport, candidate) {
      Installed(p, r, s, candidate, status);
      GrownIsSamePlace(p, Install(p, r, s, status), r.direction, s);
    } else {
      UnmovedIsSamePlace(p, Rejected(p, r));
    }
  }

  /** What an answer to a directional request comes to. */
  lemma LoadedCases(p: Picker, r: Request, a: Answer, status: bool)
    requires Active(p.paging, r) && MoveFits(r) && r.direction != Initial
    ensures PageLoaded(p, r, a, status) ==
            if !BoundaryMatches(p.segments, r) then StalePage(p, r)
            else if !Usable(a, p.project, r.offset) then FailPage(p, r)
            else if a.response.value.workspaces == [] then EmptyEdge(p, r)
            else Install(p, r, SegmentFrom(r, a.response.value), status)
  {
  }

  /**
   While the picker is ready, an answer to a request the user did not make by walking off the edge leaves the same row
   selected and the same row at the top of the screen, even when a page is put in front or dropped.
   */
  lemma BackgroundLoadKeepsPlace(p: Picker, r: Request, a: Answer, status: bool)
    requires Sound(p) && ReadyPhase(p.phase) && (Active(p.paging, r) ==> MoveFits(r) && !r.crossing)
    ensures SamePlace(p, PageLoaded(p, r, a, status)) && ReadyPhase(PageLoaded(p, r, a, status).phase)
  {
    if !Active(p.paging, r) {
      UnmovedIsSamePlace(p, p);
    } else {
      LoadedCases(p, r, a, status);
      if !BoundaryMatches(p.segments, r) {
        StaleIsSound(p, r);
        UnmovedIsSamePlace(p, StalePage(p, r));
      } else if !Usable(a, p.project, r.offset) {
        UnmovedIsSamePlace(p, FailPage(p, r));
      } else if a.response.value.workspaces == [] {
        UnmovedIsSamePlace(p, EmptyEdge(p, r));
      } else {
        InstallKeepsPlace(p, r, SegmentFrom(r, a.response.value), status);
      }
    }
  }

  /** A taken crossing answer selects the landing row of its page. */
  lemma CrossingLandsOnPage(p: Picker, r: Request, a: Answer, status: bool)
    requires Sound(p) && ReadyPhase(p.phase) && Active(p.paging, r) && MoveFits(r) && r.crossing && Takes(p, r, a)
    ensures var q := PageLoaded(p, r, a, status);
            var page := a.response.value.workspaces;
            && r.direction != Initial
            && 0 <= q.cursor < |Rows(q.segments)|
            && Rows(q.segments)[q.cursor] == page[LandingRow(r, |page|)]
  {
    var s := SegmentFrom(r, a.response.value);
    var candidate := Candidate(p.segments, r.direction, s);
    LoadedCases(p, r, a, status);
    Installed(p, r, s, candidate, status);
    assert s in candidate;
    LandingRowIsThere(OccurrenceIn(s, LandingRow(r, |s.workspaces|)), candidate, s);
  }

  /** The request a move off the edge sends. */
  lemma MoveSendsItsAim(p: Picker, d: Direction, pageMove: bool, distance: int)
    requires d != Initial && p.segments != [] && EdgeOf(p.paging, d).request.None?
    requires EdgeOf(RequestEdge(p, d, true, pageMove, distance).paging, d).request.Some?
    ensures var r := EdgeOf(RequestEdge(p, d, true, pageMove, distance).paging, d).request.value;
            && r.direction == d && r.crossing && r.pageMove == pageMove
            && r.pageMoveOverflow == PageMoveOverflow(p, d, pageMove, distance)
  {
  }

  /**
   Walking off the edge lands where it aimed: in the list with the arrived page joined on, the row one step, or a
   screenful, away from the cursor at the time of the move, as far as that list goes.
   */
  lemma MoveLandsWhereItAimed(p: Picker, d: Direction, pageMove: bool, distance: int, page: seq<Workspace>)
    requires d != Initial && p.segments != [] && EdgeOf(p.paging, d).request.None? && page != []
    requires EdgeOf(RequestEdge(p, d, true, pageMove, distance).paging, d).request.Some?
    requires 0 <= p.cursor < |Rows(p.segments)| && distance >= 1
    requires !(0 <= Target(p, if d == Next then 1 else -1, pageMove, distance) < |Rows(p.segments)|)
    ensures var r := EdgeOf(RequestEdge(p, d, true, pageMove, distance).paging, d).request.value;
            var aim := Target(p, if d == Next then 1 else -1, pageMove, distance);
            && r.direction == d && MoveFits(r)
            && (d == Next ==>
                  var all := Rows(p.segments) + page;
                  page[LandingRow(r, |page|)] == all[if aim < |all| then aim else |all| - 1])
            && (d == Previous ==>
                  var all := page + Rows(p.segments);
                  page[LandingRow(r, |page|)] == all[if |page| + aim >= 0 then |page| + aim else 0])
  {
    MoveSendsItsAim(p, d, pageMove, distance);
  }

  lemma LandingRowIsThere(o: Occurrence, segments: seq<Segment>, s: Segment)
    requires DistinctPages(segments) && s in segments && Names(o, s)
    ensures IndexOf(o, segments).Some? && Rows(segments)[IndexOf(o, segments).value] == s.workspaces[o.index]
  {
    var k :| 0 <= k < |segments| && segments[k] == s;
    OccurrenceLeadsToRow(o, segments, k);
  }

  lemma CrossingIsHeard(p: Picker, delta: int, pageMove: bool, distance: int, status: bool)
    requires Sound(p) && ReadyPhase(p.phase) && delta in {-1, 1} && (pageMove ==> distance >= 1)
    requires !(0 <= Target(p, delta, pageMove, distance) < |Rows(p.segments)|)
    ensures EdgeOf(MoveBy(p, delta, pageMove, distance, status).paging, if delta > 0 then Next else Previous).state
            in {Loading, Exhausted}
  {
    ContiguousIsDistinct(p.segments, p.paging.generation);
    RequestEdgePages(p, if delta > 0 then Next else Previous, true, pageMove, if pageMove then distance else 0);
  }

  /** Walking off an edge, by a row or a screenful, is never ignored: it ends up loading, or known to be the end. */
  lemma EdgeMoveIsHeard(p: Picker, delta: int, status: bool)
    requires Sound(p) && ReadyPhase(p.phase) && delta in {-1, 1}
    ensures !(0 <= p.cursor + delta < |Rows(p.segments)|) ==>
              EdgeOf(MoveCursor(p, delta, status).paging, if delta > 0 then Next else Previous).state in {Loading, Exhausted}
    ensures !(0 <= p.cursor + delta * PageDistance(p, status) < |Rows(p.segments)|) ==>
              EdgeOf(MovePage(p, delta, status).paging, if delta > 0 then Next else Previous).state in {Loading, Exhausted}
  {
    if !(0 <= p.cursor + delta < |Rows(p.segments)|) {
      CrossingIsHeard(p, delta, false, 0, status);
    }
    if !(0 <= p.cursor + delta * PageDistance(p, status) < |Rows(p.segments)|) {
      CrossingIsHeard(p, delta, true, PageDistance(p, status), status);
    }
  }
}
