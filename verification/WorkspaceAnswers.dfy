/** What the workspace picker asks for at its edges, and what each answer leaves: phase, edges and what is on screen. */
module WorkspaceAnswers {
  import opened Prelude
  import opened PageWindow
  import opened WorkspacePicker
  import opened WorkspaceRuns
  import opened WorkspaceKeys
  import Viewport = PickerViewport

  // --- What is asked for ---

  /** Where the page past an end starts, if there is one. */
  function PageBeyond(segments: seq<Segment>, d: Direction): Option<int>
    requires segments != []
  {
    if d == Next then segments[|segments| - 1].nextOffset
    else if d == Previous && segments[0].offset > 0 then
      Some(if segments[0].offset < PAGE_SIZE then 0 else segments[0].offset - PAGE_SIZE)
    else None
  }

  /** The request is new, for the page past that end, and its answer fits the rows it was made for. */
  predicate AsksBeyond(p: Picker, q: Picker, d: Direction, crossing: bool)
    requires d != Initial
  {
    && p.segments != [] && EdgeOf(q.paging, d).request.Some? && EdgeOf(q.paging, d).state == Loading
    && var r := EdgeOf(q.paging, d).request.value;
       && r.direction == d && r.crossing == crossing && r.generation == p.paging.generation + 1
       && PageBeyond(p.segments, d) == Some(r.offset) && BoundaryMatches(p.segments, r)
  }

  lemma BeyondIsOffset(segments: seq<Segment>, d: Direction)
    requires segments != [] && d != Initial && segments[0].offset >= 0
    ensures EdgeOffset(segments, d) == PageBeyond(segments, d)
  {
  }

  lemma BoundaryFits(p: Picker, d: Direction, i: Intent)
    requires Sound(p) && ReadyPhase(p.phase) && d != Initial && EdgeOffset(p.segments, d) == Some(i.offset)
    requires i.boundary == BoundaryOf(p.segments, d)
    ensures BoundaryMatches(p.segments, Issued(p.paging, d, i))
  {
    var first, last := p.segments[0], p.segments[|p.segments| - 1];
    assert GoodSegment(first, p.paging.generation) && GoodSegment(last, p.paging.generation);
  }

  lemma BegunAsksBeyond(p: Picker, d: Direction, i: Intent)
    requires Sound(p) && ReadyPhase(p.phase) && d != Initial && EdgeOf(p.paging, d).request.None?
    requires EdgeOffset(p.segments, d) == Some(i.offset) && i.boundary == BoundaryOf(p.segments, d)
    ensures AsksBeyond(p, p.(paging := Begin(p.paging, d, i)), d, i.crossing)
  {
    BoundaryFits(p, d, i);
    assert GoodSegment(p.segments[0], p.paging.generation);
    BeyondIsOffset(p.segments, d);
  }

  /** An edge that can be asked for has no request out and is not known to be the end. */
  predicate Askable(p: Picker, d: Direction)
    requires d != Initial && p.segments != []
  {
    var edge := EdgeOf(p.paging, d);
    edge.request.None? && edge.state != Exhausted && PageBeyond(p.segments, d).Some?
  }

  /** The request made, where one is made. */
  lemma RequestBegins(p: Picker, d: Direction, crossing: bool, pageMove: bool, visible: int) returns (i: Intent)
    requires Sound(p) && ReadyPhase(p.phase) && d != Initial && Askable(p, d) && EdgeOffset(p.segments, d).Some?
    ensures i.offset == EdgeOffset(p.segments, d).value && i.boundary == BoundaryOf(p.segments, d) && i.crossing == crossing
    ensures RequestEdge(p, d, crossing, pageMove, visible) == p.(paging := Begin(p.paging, d, i))
  {
    var edge := EdgeOf(p.paging, d);
    var overflow := PageMoveOverflow(p, d, pageMove, visible);
    var retries := edge.state == Failed;
    var distance := if retries && visible < 1 then edge.failedRequest.value.visibleDistance else visible;
    i := Intent(EdgeOffset(p.segments, d).value, BoundaryOf(p.segments, d), crossing, pageMove, distance, overflow,
                if retries then edge.failedRequest.value.move else 0);
  }

  lemma RequestsPage(p: Picker, d: Direction, crossing: bool, pageMove: bool, visible: int)
    requires Sound(p) && ReadyPhase(p.phase) && d != Initial && Askable(p, d)
    ensures AsksBeyond(p, RequestEdge(p, d, crossing, pageMove, visible), d, crossing)
  {
    assert GoodSegment(p.segments[0], p.paging.generation);
    BeyondIsOffset(p.segments, d);
    var i := RequestBegins(p, d, crossing, pageMove, visible);
    BegunAsksBeyond(p, d, i);
  }

  /** Walking off an end asks for the page past it, unless it is being asked for or is known not to be there. */
  lemma CrossingAsksBeyond(p: Picker, delta: int, pageMove: bool, distance: int, status: bool)
    requires Sound(p) && ReadyPhase(p.phase) && delta in {-1, 1} && (pageMove ==> distance >= 1)
    requires !(0 <= Target(p, delta, pageMove, distance) < |Rows(p.segments)|)
    ensures var d := if delta > 0 then Next else Previous;
            Askable(p, d) ==> AsksBeyond(p, MoveBy(p, delta, pageMove, distance, status), d, true)
  {
    var d := if delta > 0 then Next else Previous;
    if Askable(p, d) {
      RequestsPage(p, d, true, pageMove, if pageMove then distance else 0);
    }
  }

  /** Coming near an end asks for the page past it in the background. */
  lemma NearingAsksBeyond(p: Picker, row: int, delta: int, status: bool)
    requires Sound(p) && ReadyPhase(p.phase) && delta in {-1, 1} && 0 <= row < |Rows(p.segments)|
    ensures var d := if delta > 0 then Next else Previous;
            var moved := SelectIndex(p, row, status);
            Nears(moved, d, status) && Askable(p, d) ==> AsksBeyond(p, MoveWithin(p, row, delta, status), d, false)
  {
    var d := if delta > 0 then Next else Previous;
    SelectedRow(p, row, status);
    SelectIsSound(p, row, status);
    if Askable(p, d) {
      RequestsPage(SelectIndex(p, row, status), d, false, false, 0);
    }
  }

  /** A picker begins with a request for its first page, and while it loads, with nothing chosen, one is out. */
  lemma OpeningAsks(project: string, height: int)
    ensures var p := Opened(project, height); p.phase == InitialLoading && LoadingAsks(p) && p.result.None?
  {
  }

  predicate LoadingAsks(p: Picker) {
    p.phase == InitialLoading && p.result.None? ==> p.paging.request.Some? && p.paging.request.value.offset == 0
  }

  lemma StepLoadingAsks(p: Picker, action: Action)
    requires Sound(p) && LoadingAsks(p)
    ensures LoadingAsks(Step(p, action))
  {
    if action.Arrive? {
      ArrivalLoadingAsks(p, action);
    } else if ReadyPhase(p.phase) && Aim(p, action).Some? {
      KeysKeepPhase(p, action);
    }
  }

  lemma ArrivalLoadingAsks(p: Picker, action: Action)
    requires Sound(p) && LoadingAsks(p) && action.Arrive?
    ensures LoadingAsks(Step(p, action))
  {
    var r := action.request;
    if Active(p.paging, r) {
      if r.direction == Initial {
        FirstAnswerSettles(p, action);
      } else {
        AnswersSettleThePhase(p, r, action.answer, action.status);
      }
    }
  }

  lemma KeysKeepPhase(p: Picker, action: Action)
    requires Sound(p) && ReadyPhase(p.phase) && Aim(p, action).Some?
    ensures Step(p, action).phase == p.phase
  {
    var delta := if action.ArrowUp? || action.PageUp? then -1 else 1;
    MoveKeepsPhase(p, delta, false, 0, action.status);
    MoveKeepsPhase(p, delta, true, PageDistance(p, action.status), action.status);
  }

  lemma MoveKeepsPhase(p: Picker, delta: int, pageMove: bool, distance: int, status: bool)
    ensures MoveBy(p, delta, pageMove, distance, status).phase == p.phase
  {
  }

  // --- What answers leave ---

  /** What the first answer leads to: rows, a choice, an empty list, or a failure that says so. */
  lemma FirstAnswerSettles(p: Picker, action: Action)
    requires Sound(p) && action.Arrive? && p.paging.request == Some(action.request) && action.request.direction == Initial
    ensures var q := Step(p, action);
            && q.paging.request.None?
            && (!Usable(action.answer, p.project, action.request.offset) ==> q.phase == FirstPageFailed)
            && (Usable(action.answer, p.project, action.request.offset) ==>
                  var page := action.answer.response.value;
                  && (q.phase == Empty <==> page.workspaces == [])
                  && (q.phase == Ready <==> page.workspaces != [] && !OnlyOne(p, action))
                  && (q.phase == Ready ==>
                        q.paging.previousEdge.state == Exhausted
                        && q.paging.nextEdge.state == (if page.nextOffset.None? then Exhausted else Unknown))
                  && (q.phase == Empty ==> q.paging.previousEdge.state == Exhausted && q.paging.nextEdge.state == Exhausted))
  {
  }

  /** After an answer at an edge the picker shows a failure exactly if one of its edges has failed. */
  lemma AnswersSettleThePhase(p: Picker, r: Request, a: Answer, status: bool)
    requires Sound(p) && ReadyPhase(p.phase) && Active(p.paging, r) && r.direction != Initial
    ensures MoveFits(r)
    ensures var q := PageLoaded(p, r, a, status);
            q.phase == if q.paging.nextEdge.state == Failed || q.paging.previousEdge.state == Failed then ReadyWithEdgeFailure else Ready
  {
    LoadedCases(p, r, a, status);
    if BoundaryMatches(p.segments, r) && Usable(a, p.project, r.offset) && a.response.value.workspaces != [] {
      InstallSettles(p, r, SegmentFrom(r, a.response.value), status);
    }
  }

  lemma InstallSettles(p: Picker, r: Request, s: Segment, status: bool)
    requires Sound(p) && ReadyPhase(p.phase) && Active(p.paging, r) && r.direction != Initial && MoveFits(r)
    requires BoundaryMatches(p.segments, r) && AnswersRequest(s, r)
    ensures var q := Install(p, r, s, status); q.phase == FailurePhase(q.paging)
    ensures var q := Install(p, r, s, status);
            var candidate := Candidate(p.segments, r.direction, s);
            q.paging == if Resident(p.selected, candidate) && Resident(p.viewport, candidate)
                        then PagingAfter(p.paging, r, s, candidate) else Rejected(p, r).paging
  {
    var candidate := Candidate(p.segments, r.direction, s);
    if Resident(p.selected, candidate) && Resident(p.viewport, candidate) {
      PagingAfterIsSound(p.paging, p.segments, r, s, candidate);
      ContiguousIsDistinct(candidate, PagingAfter(p.paging, r, s, candidate).generation);
      InstallAnchors(p, r, s, candidate, status);
    }
  }

  /** The answer to the request at this edge was a page without rows, though the page before it announced one. */
  predicate CameEmpty(p: Picker, r: Request, a: Answer) {
    Usable(a, p.project, r.offset) && a.response.value.workspaces == []
  }

  /** An edge is given up as the end only where there is no page past it, or that page came empty. */
  lemma EdgesEndExactly(p: Picker, r: Request, a: Answer, status: bool)
    requires Sound(p) && ReadyPhase(p.phase) && Active(p.paging, r) && r.direction != Initial
    ensures var q := PageLoaded(p, r, a, status);
            EdgeOf(q.paging, r.direction).state == Exhausted <==>
              if Takes(p, r, a) then PageBeyond(q.segments, r.direction).None?
              else || (BoundaryMatches(p.segments, r) && CameEmpty(p, r, a))
                   || (!BoundaryMatches(p.segments, r) && PageBeyond(p.segments, r.direction).None?)
  {
    LoadedCases(p, r, a, status);
    if BoundaryMatches(p.segments, r) && Usable(a, p.project, r.offset) && a.response.value.workspaces != [] {
      var s := SegmentFrom(r, a.response.value);
      InstallSettles(p, r, s, status);
      InstalledEdge(p, r, s, Candidate(p.segments, r.direction, s));
      TakesDirectional(p, r, a, status);
    }
  }

  lemma InstalledEdge(p: Picker, r: Request, s: Segment, candidate: seq<Segment>)
    requires Sound(p) && ReadyPhase(p.phase) && Active(p.paging, r) && r.direction != Initial
    requires BoundaryMatches(p.segments, r) && AnswersRequest(s, r) && candidate == Candidate(p.segments, r.direction, s)
    ensures EdgeOf(PagingAfter(p.paging, r, s, candidate), r.direction).state ==
            (if PageBeyond(candidate, r.direction).None? then Exhausted else Unknown)
  {
    NewPageAndNeighbour(p.segments, s);
    CandidateIsContiguous(p.paging, p.segments, r, s);
    assert GoodSegment(candidate[0], p.paging.generation);
  }

  // --- What is on screen ---

  lemma EnsuringScrolls(p: Picker, status: bool)
    requires 0 <= p.cursor < |Rows(p.segments)|
    ensures var q := EnsureVisible(p, status);
            q.cursor == p.cursor && q.segments == p.segments && ScrolledTo(q, status, p.cursor, q.offset)
  {
  }

  lemma InstallScrolls(p: Picker, r: Request, s: Segment, status: bool)
    requires r.crossing && r.direction != Initial && s.workspaces != [] && MoveFits(r)
    requires var candidate := Candidate(p.segments, r.direction, s);
             Resident(p.selected, candidate) && Resident(p.viewport, candidate)
    requires var mapped := Remapped(Grown(p, r, s, Candidate(p.segments, r.direction, s)), status);
             0 <= mapped.cursor < |Rows(mapped.segments)|
    ensures var q := Install(p, r, s, status); 0 <= q.cursor < |Rows(q.segments)| && ScrolledTo(q, status, q.cursor, q.offset)
  {
    EnsuringScrolls(Remapped(Grown(p, r, s, Candidate(p.segments, r.direction, s)), status), status);
  }

  /** The row a crossing lands on can be seen. */
  lemma CrossingShowsItsRow(p: Picker, r: Request, a: Answer, status: bool)
    requires Sound(p) && ReadyPhase(p.phase) && Active(p.paging, r) && MoveFits(r) && r.crossing && Takes(p, r, a)
    requires r.direction != Initial
    ensures var q := PageLoaded(p, r, a, status);
            0 <= q.cursor < |Rows(q.segments)| && ScrolledTo(q, status, q.cursor, q.offset)
  {
    var s := SegmentFrom(r, a.response.value);
    var candidate := Candidate(p.segments, r.direction, s);
    LoadedCases(p, r, a, status);
    LandingIsAnchored(p, r, s, candidate, status);
    InstallScrolls(p, r, s, status);
  }

  lemma LandingIsAnchored(p: Picker, r: Request, s: Segment, candidate: seq<Segment>, status: bool)
    requires Sound(p) && ReadyPhase(p.phase) && Active(p.paging, r) && r.direction != Initial && MoveFits(r) && r.crossing
    requires BoundaryMatches(p.segments, r) && AnswersRequest(s, r) && candidate == Candidate(p.segments, r.direction, s)
    requires Resident(p.selected, candidate) && Resident(p.viewport, candidate)
    ensures var mapped := Remapped(Grown(p, r, s, candidate), status); 0 <= mapped.cursor < |Rows(mapped.segments)|
  {
    LandingIsFound(r, s, candidate);
    RemappedIsAnchored(Grown(p, r, s, candidate), status);
  }

  /** Lines that are not rows: header and footer, the status line, and a note at each edge that is loading or failed. */
  function Chrome(p: Picker, status: bool): int {
    4 + (if status && ReadyPhase(p.phase) then 2 else 0)
    + (if p.paging.previousEdge.state in {Loading, Failed} then 1 else 0)
    + (if p.paging.nextEdge.state in {Loading, Failed} then 1 else 0)
  }

  /** What is shown fits the terminal, if that has a line to spare for rows, and all rows that fit are shown. */
  lemma ScreenFits(p: Picker, status: bool)
    requires p.height > Chrome(p, status)
    ensures var listing := ListingOf(|Rows(p.segments)|, LineBudget(p, status));
            var rows := Viewport.VisibleRows(listing, p.offset);
            && Chrome(p, status) + Viewport.LinesUsed(rows) <= p.height
            && (p.offset + |rows| < |Rows(p.segments)| ==>
                  Chrome(p, status) + Viewport.LinesBefore(rows, |rows|) + 1 > p.height)
  {
    var listing := ListingOf(|Rows(p.segments)|, LineBudget(p, status));
    Viewport.RowsFitBudget(listing, p.offset, listing.budget);
    Viewport.RowsFillBudget(listing, p.offset, listing.budget);
  }

  /** Every row on screen shows its preview line, if that still fits. */
  lemma PreviewsAreShown(p: Picker, status: bool, k: nat)
    requires k < |Viewport.VisibleRows(ListingOf(|Rows(p.segments)|, LineBudget(p, status)), p.offset)|
    ensures var rows := Viewport.VisibleRows(ListingOf(|Rows(p.segments)|, LineBudget(p, status)), p.offset);
            rows[k].showPreview <==> Viewport.LinesBefore(rows, k) + 2 <= LineBudget(p, status)
  {
    Viewport.PreviewsShowWhenTheyFit(ListingOf(|Rows(p.segments)|, LineBudget(p, status)), p.offset, LineBudget(p, status), k);
  }

  /** No resident page is longer than was asked for. */
  predicate SmallPages(segments: seq<Segment>) {
    forall i :: 0 <= i < |segments| ==> |segments[i].workspaces| <= PAGE_SIZE
  }

  lemma StepKeepsPagesSmall(p: Picker, action: Action)
    requires Sound(p) && SmallPages(p.segments)
    ensures SmallPages(Step(p, action).segments)
  {
    if action.Arrive? {
      AnswerChangesPages(p, action.request, action.answer, action.status);
      if Takes(p, action.request, action.answer) && action.request.direction != Initial {
        NewPageAndNeighbour(p.segments, SegmentFrom(action.request, action.answer.response.value));
      }
    } else {
      OnlyAnswersChangePages(p, action);
    }
  }
}
