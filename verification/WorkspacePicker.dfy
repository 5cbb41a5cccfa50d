/**
 The workspace picker: a list paged in both directions at once, of which at most two pages are resident. Answers may
 come late, fail, or belong to a page list that has moved on.
 */
module WorkspacePicker {
  import opened Prelude
  import opened PageWindow
  import Viewport = PickerViewport

  const PAGE_SIZE := 50

  datatype Workspace = Workspace(id: string, rootPath: string)

  datatype Segment = Segment(generation: nat, offset: int, workspaces: seq<Workspace>, nextOffset: Option<int>)

  /** One row by the page it came with, so that it is still found after pages are added or dropped around it. */
  datatype Occurrence = Occurrence(generation: nat, offset: int, index: int, workspace: string)

  datatype Phase = InitialLoading | Ready | Empty | FirstPageFailed | ReadyWithEdgeFailure

  datatype Response = Response(projectId: string, offset: int, workspaces: seq<Workspace>, nextOffset: Option<int>)

  /** What a page load comes back with; the response itself may be missing. */
  datatype Answer = LoadError | Loaded(response: Option<Response>)

  datatype Picker = Picker(
    project: string,
    phase: Phase,
    segments: seq<Segment>,
    paging: Paging,
    selected: Option<Occurrence>,
    viewport: Option<Occurrence>,
    cursor: int,
    offset: nat,
    height: int,
    result: Option<Workspace>)

  // --- Rows and occurrences ---

  function Rows(segments: seq<Segment>): seq<Workspace> {
    if segments == [] then [] else segments[0].workspaces + Rows(segments[1..])
  }

  function OccurrenceIn(segment: Segment, index: nat): Occurrence
    requires index < |segment.workspaces|
  {
    Occurrence(segment.generation, segment.offset, index, segment.workspaces[index].id)
  }

  function OccurrenceAt(segments: seq<Segment>, index: nat): (o: Option<Occurrence>)
    ensures o.Some? <==> index < |Rows(segments)|
  {
    if segments == [] then None
    else if index < |segments[0].workspaces| then Some(OccurrenceIn(segments[0], index))
    else OccurrenceAt(segments[1..], index - |segments[0].workspaces|)
  }

  predicate Names(o: Occurrence, segment: Segment) {
    && segment.generation == o.generation && segment.offset == o.offset
    && 0 <= o.index < |segment.workspaces| && segment.workspaces[o.index].id == o.workspace
  }

  /** Where an occurrence is among the resident rows. */
  function IndexOf(o: Occurrence, segments: seq<Segment>): (index: Option<nat>)
    ensures index.Some? ==> index.value < |Rows(segments)| && Rows(segments)[index.value].id == o.workspace
  {
    if segments == [] then None
    else if Names(o, segments[0]) then Some(o.index)
    else
      var later := IndexOf(o, segments[1..]);
      if later.None? then None else Some(|segments[0].workspaces| + later.value)
  }

  /** An occurrence is found exactly when some page names it. */
  lemma {:induction false} FoundWhenNamed(o: Occurrence, segments: seq<Segment>)
    ensures IndexOf(o, segments).Some? <==> exists k :: 0 <= k < |segments| && Names(o, segments[k])
    decreases |segments|
  {
    if segments != [] {
      var rest := segments[1..];
      FoundWhenNamed(o, rest);
      assert forall k :: 0 <= k < |rest| ==> rest[k] == segments[k + 1];
      assert forall k :: 1 <= k < |segments| ==> segments[k] == rest[k - 1];
    }
  }

  /** A missing occurrence counts as present. */
  predicate Resident(o: Option<Occurrence>, segments: seq<Segment>) {
    o.Some? ==> IndexOf(o.value, segments).Some?
  }

  predicate FoundAt(o: Option<Occurrence>, segments: seq<Segment>, index: int) {
    o.Some? && IndexOf(o.value, segments).Some? && IndexOf(o.value, segments).value == index
  }

  // --- The viewport ---

  predicate ReadyPhase(phase: Phase) {
    phase == Ready || phase == ReadyWithEdgeFailure
  }

  predicate ShowsStatus(e: Edge) {
    e.state == Loading || e.state == Failed
  }

  /** Lines for rows: the height less header, status line and edge notes, never under one. */
  function LineBudget(p: Picker, status: bool): (lines: int)
    ensures lines >= 1
  {
    var lines := p.height - 4
      - (if ReadyPhase(p.phase) && status then 2 else 0)
      - (if ShowsStatus(p.paging.previousEdge) then 1 else 0)
      - (if ShowsStatus(p.paging.nextEdge) then 1 else 0);
    if lines < 1 then 1 else lines
  }

  function ListingOf(count: nat, budget: int): Viewport.Listing {
    Viewport.Listing(count, (index: nat) => index < count, budget)
  }

  function ListingFor(p: Picker, status: bool): Viewport.Listing {
    ListingOf(|Rows(p.segments)|, LineBudget(p, status))
  }

  function Clamped(cursor: int, count: nat): (c: nat)
    requires count > 0
    ensures c < count
    ensures 0 <= cursor < count ==> c == cursor
  {
    if cursor < 0 then 0 else if cursor >= count then count - 1 else cursor
  }

  function EnsureVisible(p: Picker, status: bool): Picker {
    var count := |Rows(p.segments)|;
    if count == 0 then p.(cursor := 0, offset := 0, viewport := None)
    else
      var cursor := Clamped(p.cursor, count);
      var offset := Viewport.LeastVisible(ListingFor(p, status), cursor);
      p.(cursor := cursor, offset := offset, viewport := OccurrenceAt(p.segments, offset))
  }

  function SelectIndex(p: Picker, index: int, status: bool): Picker {
    if index < 0 || index >= |Rows(p.segments)| then p
    else EnsureVisible(p.(cursor := index, selected := OccurrenceAt(p.segments, index)), status)
  }

  function PageDistance(p: Picker, status: bool): (n: int)
    ensures n >= 1
  {
    var shown := |Viewport.VisibleRows(ListingFor(p, status), p.offset)|;
    if shown < 1 then 1 else shown
  }

  // --- Requests toward an edge ---

  function EdgeOffset(segments: seq<Segment>, d: Direction): Option<int>
    requires segments != []
  {
    match d
    case Previous =>
      if segments[0].offset == 0 then None
      else if segments[0].offset - PAGE_SIZE < 0 then Some(0)
      else Some(segments[0].offset - PAGE_SIZE)
    case Next => segments[|segments| - 1].nextOffset
    case Initial => None
  }

  function BoundaryOf(segments: seq<Segment>, d: Direction): Option<Boundary> {
    if segments == [] || d == Initial then None
    else
      var outer := if d == Previous then segments[0] else segments[|segments| - 1];
      if outer.workspaces == [] then None
      else Some(Boundary(outer.generation, outer.offset, if d == Previous then 0 else |outer.workspaces| - 1))
  }

  /** The page list still ends, on the request's side, at the row the request was made for. */
  predicate BoundaryMatches(segments: seq<Segment>, r: Request) {
    if r.boundary.None? || segments == [] || r.direction == Initial then false
    else
      var b := r.boundary.value;
      var outer := if r.direction == Previous then segments[0] else segments[|segments| - 1];
      && outer.workspaces != []
      && b.generation == outer.generation
      && b.offset == outer.offset
      && b.index == (if r.direction == Previous then 0 else |outer.workspaces| - 1)
      && EdgeOffset(segments, r.direction) == Some(r.offset)
  }

  function PageMoveOverflow(p: Picker, d: Direction, pageMove: bool, visible: int): int {
    if !pageMove then 0
    else
      var distance := if visible < 1 then 1 else visible;
      if d == Previous then p.cursor - distance else p.cursor + distance - |Rows(p.segments)|
  }

  function RetryEdge(p: Picker, d: Direction, crossing: bool, pageMove: bool, visible: int, overflow: int): Picker
    requires p.segments != [] && d != Initial
  {
    var failed := EdgeOf(p.paging, d).failedRequest;
    var offset := EdgeOffset(p.segments, d);
    if failed.None? || offset.None? then p
    else
      var distance := if visible < 1 then failed.value.visibleDistance else visible;
      p.(paging := Begin(p.paging, d, Intent(offset.value, BoundaryOf(p.segments, d), crossing, pageMove, distance,
                                             overflow, failed.value.move)))
  }

  function RequestEdge(p: Picker, d: Direction, crossing: bool, pageMove: bool, visible: int): Picker
    requires d != Initial
  {
    if p.segments == [] then p
    else
      var edge := EdgeOf(p.paging, d);
      if edge.request.Some? || edge.state == Exhausted then p
      else
        var overflow := PageMoveOverflow(p, d, pageMove, visible);
        var offset := EdgeOffset(p.segments, d);
        if edge.state == Failed then RetryEdge(p, d, crossing, pageMove, visible, overflow)
        else if offset.None? then p.(paging := WithEdge(p.paging, d, edge.(state := Exhausted)))
        else
          p.(paging := Begin(p.paging, d, Intent(offset.value, BoundaryOf(p.segments, d), crossing, pageMove, visible,
                                                 overflow, 0)))
  }

  function Prefetch(p: Picker, delta: int, status: bool): Picker {
    if p.segments == [] then p
    else
      var visible := PageDistance(p, status);
      if delta < 0 && p.cursor < visible then RequestEdge(p, Previous, false, false, 0)
      else if delta > 0 && |Rows(p.segments)| - 1 - p.cursor < visible then RequestEdge(p, Next, false, false, 0)
      else p
  }

  /** One row, or a screenful, in the direction of `delta`, which is 1 or -1. */
  function Target(p: Picker, delta: int, pageMove: bool, distance: int): int {
    var rows := if pageMove then distance else 1;
    if delta > 0 then p.cursor + rows else p.cursor - rows
  }

  function MoveWithin(p: Picker, next: int, delta: int, status: bool): Picker {
    Prefetch(SelectIndex(p, next, status), delta, status)
  }

  function MoveBy(p: Picker, delta: int, pageMove: bool, distance: int, status: bool): Picker {
    var next := Target(p, delta, pageMove, distance);
    if 0 <= next < |Rows(p.segments)| then MoveWithin(p, next, delta, status)
    else RequestEdge(p, if delta > 0 then Next else Previous, true, pageMove, if pageMove then distance else 0)
  }

  function MoveCursor(p: Picker, delta: int, status: bool): Picker {
    if !ReadyPhase(p.phase) || Rows(p.segments) == [] then p else MoveBy(p, delta, false, 0, status)
  }

  function MovePage(p: Picker, direction: int, status: bool): Picker {
    if !ReadyPhase(p.phase) || Rows(p.segments) == [] then p
    else MoveBy(p, direction, true, PageDistance(p, status), status)
  }

  // --- Page loads ---

  function StartInitial(p: Picker): Picker {
    if p.paging.request.Some? then p
    else
      p.(paging := Begin(p.paging, Initial, Intent(0, BoundaryOf(p.segments, Initial), false, false, 0, 0, 0)),
         phase := InitialLoading, segments := [], selected := None, viewport := None, cursor := 0, offset := 0)
  }

  predicate ValidPage(response: Option<Response>, project: string, offset: int) {
    && response.Some?
    && response.value.projectId == project
    && response.value.offset == offset
    && |response.value.workspaces| <= PAGE_SIZE
    && (response.value.nextOffset.Some? ==>
          |response.value.workspaces| == PAGE_SIZE && response.value.nextOffset.value == offset + PAGE_SIZE)
  }

  predicate Usable(a: Answer, project: string, offset: int) {
    a.Loaded? && ValidPage(a.response, project, offset)
  }

  function SegmentFrom(r: Request, response: Response): Segment {
    Segment(r.generation, r.offset, response.workspaces, response.nextOffset)
  }

  function FailurePhase(g: Paging): Phase {
    if g.previousEdge.state == Failed || g.nextEdge.state == Failed then ReadyWithEdgeFailure else Ready
  }

  function FailPage(p: Picker, r: Request): Picker {
    if r.direction == Initial then
      p.(paging := Complete(p.paging, r), phase := FirstPageFailed, segments := [], selected := None, viewport := None,
         cursor := 0, offset := 0)
    else p.(paging := Fail(p.paging, r), phase := ReadyWithEdgeFailure)
  }

  function FirstPage(p: Picker, r: Request, s: Segment, status: bool): Picker {
    var done := p.(paging := Complete(p.paging, r));
    if s.workspaces == [] then
      done.(phase := Empty,
            paging := done.paging.(previousEdge := done.paging.previousEdge.(state := Exhausted),
                                   nextEdge := done.paging.nextEdge.(state := Exhausted)))
    else if |s.workspaces| == 1 && s.nextOffset.None? then done.(result := Some(s.workspaces[0]))
    else
      var shown := SelectIndex(done.(segments := [s]), 0, status);
      shown.(phase := Ready,
             paging := done.paging.(
               previousEdge := done.paging.previousEdge.(state := Exhausted),
               nextEdge := done.paging.nextEdge.(state := if s.nextOffset.None? then Exhausted else Unknown)))
  }

  /** A failed edge whose request no longer fits the page list is forgotten. */
  function DropStaleFailure(e: Edge, segments: seq<Segment>): Edge {
    if e.state == Failed && e.failedRequest.Some? && !BoundaryMatches(segments, e.failedRequest.value)
    then e.(state := Unknown, failedRequest := None)
    else e
  }

  function SyncEdge(e: Edge, segments: seq<Segment>, d: Direction): Edge
    requires segments != []
  {
    var kept := DropStaleFailure(e, segments);
    if kept.state == Failed || kept.state == Loading then kept
    else kept.(state := if EdgeOffset(segments, d).None? then Exhausted else Unknown)
  }

  function SyncEdges(g: Paging, segments: seq<Segment>): Paging {
    if segments == [] then g
    else g.(previousEdge := SyncEdge(g.previousEdge, segments, Previous), nextEdge := SyncEdge(g.nextEdge, segments, Next))
  }

  function Settled(p: Picker, d: Direction, state: EdgeState): Picker
    requires d != Initial
  {
    p.(paging := WithEdge(p.paging, d, EdgeOf(p.paging, d).(state := state)))
  }

  function StalePage(p: Picker, r: Request): Picker
    requires r.direction != Initial
  {
    if !Active(p.paging, r) then p
    else
      var done := Settled(p.(paging := Complete(p.paging, r)), r.direction, Unknown);
      var synced := SyncEdges(done.paging, done.segments);
      done.(paging := synced, phase := FailurePhase(synced))
  }

  function EmptyEdge(p: Picker, r: Request): Picker
    requires r.direction != Initial
  {
    var done := Complete(p.paging, r);
    var edge := EdgeOf(done, r.direction).(state := Exhausted, requestedOffset := r.offset, generation := r.generation);
    var paging := WithEdge(done, r.direction, edge);
    p.(paging := paging, phase := FailurePhase(paging))
  }

  function Candidate(segments: seq<Segment>, d: Direction, s: Segment): seq<Segment> {
    if d == Next then AppendBounded(segments, s) else PrependBounded(segments, s)
  }

  /** A page move toward the front was made because it went past the first row. */
  predicate MoveFits(r: Request) {
    r.direction == Previous && r.pageMove ==> r.pageMoveOverflow < 0
  }

  /** The row of an arrived page that a crossing move lands on; the page must have that row. */
  function LandingRow(r: Request, count: nat): (local: nat)
    requires count > 0 && MoveFits(r) && r.direction != Initial
    ensures local < count
  {
    if r.direction == Next then
      if !r.pageMove || r.pageMoveOverflow < 0 then 0
      else if r.pageMoveOverflow >= count then count - 1
      else r.pageMoveOverflow
    else if r.pageMove then
      if count + r.pageMoveOverflow < 0 then 0 else count + r.pageMoveOverflow
    else count - 1
  }

  function Remapped(p: Picker, status: bool): Picker {
    if p.selected.None? || IndexOf(p.selected.value, p.segments).None? then SelectIndex(p, 0, status)
    else
      var cursor := IndexOf(p.selected.value, p.segments).value;
      var moved := p.(cursor := cursor);
      if p.viewport.Some? && IndexOf(p.viewport.value, p.segments).Some? then
        moved.(offset := IndexOf(p.viewport.value, p.segments).value)
      else moved.(offset := Viewport.LeastVisible(ListingFor(moved, status), cursor))
  }

  /** The page does not fit beside the rows the user is on, so it is let go. */
  function Rejected(p: Picker, r: Request): Picker
    requires r.direction != Initial
  {
    var kept := Settled(p.(paging := Complete(p.paging, r)), r.direction, Unknown);
    kept.(phase := FailurePhase(kept.paging))
  }

  function PagingAfter(g: Paging, r: Request, s: Segment, candidate: seq<Segment>): Paging
    requires r.direction != Initial
  {
    var done := Complete(g, r);
    var state := if (if r.direction == Next then s.nextOffset.None? else s.offset == 0) then Exhausted else Unknown;
    SyncEdges(WithEdge(done, r.direction, EdgeOf(done, r.direction).(state := state)), candidate)
  }

  function Grown(p: Picker, r: Request, s: Segment, candidate: seq<Segment>): Picker
    requires r.direction != Initial && s.workspaces != [] && MoveFits(r)
  {
    var paging := PagingAfter(p.paging, r, s, candidate);
    p.(segments := candidate, paging := paging, phase := FailurePhase(paging),
       selected := if r.crossing then Some(OccurrenceIn(s, LandingRow(r, |s.workspaces|))) else p.selected)
  }

  function Resettled(p: Picker, crossing: bool, status: bool): Picker {
    var mapped := Remapped(p, status);
    if crossing then EnsureVisible(mapped, status) else mapped
  }

  function Install(p: Picker, r: Request, s: Segment, status: bool): Picker
    requires r.direction != Initial && s.workspaces != [] && MoveFits(r)
  {
    var candidate := Candidate(p.segments, r.direction, s);
    if !Resident(p.selected, candidate) || !Resident(p.viewport, candidate) then Rejected(p, r)
    else Resettled(Grown(p, r, s, candidate), r.crossing, status)
  }

  function PageLoaded(p: Picker, r: Request, a: Answer, status: bool): Picker
    requires Active(p.paging, r) ==> MoveFits(r)
  {
    if !Active(p.paging, r) then p
    else if r.direction != Initial && !BoundaryMatches(p.segments, r) then StalePage(p, r)
    else if !Usable(a, p.project, r.offset) then FailPage(p, r)
    else
      var s := SegmentFrom(r, a.response.value);
      if r.direction == Initial then FirstPage(p, r, s, status)
      else if s.workspaces == [] then EmptyEdge(p, r)
      else Install(p, r, s, status)
  }

  function Enter(p: Picker): Picker {
    if p.phase == FirstPageFailed || p.phase == Empty then StartInitial(p)
    else if ReadyPhase(p.phase) && 0 <= p.cursor < |Rows(p.segments)| then
      p.(result := Some(Rows(p.segments)[p.cursor]))
    else p
  }

  // --- Runs ---

  /** What reaches the picker; `status` says whether the status line is showing at that moment. */
  datatype Action =
    | ArrowUp(status: bool)
    | ArrowDown(status: bool)
    | PageUp(status: bool)
    | PageDown(status: bool)
    | PressEnter
    | Resize(height: int, status: bool)
    | Arrive(request: Request, answer: Answer, status: bool)

  function Step(p: Picker, action: Action): Picker
    requires Sound(p)
  {
    match action
    case ArrowUp(status) => MoveCursor(p, -1, status)
    case ArrowDown(status) => MoveCursor(p, 1, status)
    case PageUp(status) => MovePage(p, -1, status)
    case PageDown(status) => MovePage(p, 1, status)
    case PressEnter => Enter(p)
    case Resize(height, status) => EnsureVisible(if height > 0 then p.(height := height) else p, status)
    case Arrive(r, a, status) => PageLoaded(p, r, a, status)
  }

  // --- What every reachable state satisfies ---

  predicate GoodSegment(s: Segment, generation: nat) {
    && s.workspaces != [] && 1 <= s.generation <= generation
    && s.offset >= 0 && s.offset % PAGE_SIZE == 0
    && (s.nextOffset.Some? ==> s.nextOffset.value == s.offset + PAGE_SIZE)
  }

  /** At most two pages, at consecutive offsets, from different requests. */
  predicate Contiguous(segments: seq<Segment>, generation: nat) {
    && |segments| <= RESIDENT_PAGE_LIMIT
    && (forall i :: 0 <= i < |segments| ==> GoodSegment(segments[i], generation))
    && (|segments| == 2 ==>
          segments[1].offset == segments[0].offset + PAGE_SIZE && segments[0].generation != segments[1].generation)
  }

  /** No page came from a request still in flight. */
  predicate Unanswered(segments: seq<Segment>, slot: Option<Request>) {
    slot.Some? ==> forall i :: 0 <= i < |segments| ==> segments[i].generation != slot.value.generation
  }

  /** An edge loads exactly while a request is out; a failed edge can be retried; an unknown edge leads somewhere. */
  predicate EdgeSound(e: Edge, segments: seq<Segment>, d: Direction) {
    && (e.state == Loading <==> e.request.Some?)
    && (e.request.Some? ==> MoveFits(e.request.value))
    && (e.state == Failed ==>
          e.failedRequest.Some? && e.failedRequest.value.direction == d && BoundaryMatches(segments, e.failedRequest.value))
    && (e.state == Unknown ==> segments != [] && EdgeOffset(segments, d).Some?)
  }

  /** The cursor is on the selected row and the top of the screen is the remembered top row. */
  predicate Anchored(p: Picker) {
    FoundAt(p.selected, p.segments, p.cursor) && FoundAt(p.viewport, p.segments, p.offset)
  }

  predicate Blank(p: Picker) {
    && p.segments == [] && p.selected.None? && p.viewport.None? && p.cursor == 0 && p.offset == 0
    && !ShowsStatus(p.paging.previousEdge) && !ShowsStatus(p.paging.nextEdge)
  }

  predicate PagingSound(g: Paging, segments: seq<Segment>) {
    && Distinct(g)
    && Contiguous(segments, g.generation)
    && Unanswered(segments, g.nextEdge.request)
    && Unanswered(segments, g.previousEdge.request)
    && EdgeSound(g.previousEdge, segments, Previous)
    && EdgeSound(g.nextEdge, segments, Next)
  }

  predicate Sound(p: Picker) {
    && PagingSound(p.paging, p.segments)
    && (p.paging.request.Some? ==> p.paging.request.value.offset == 0 && p.phase == InitialLoading)
    && (if ReadyPhase(p.phase) then p.segments != [] && Anchored(p) else Blank(p))
    && (FailurePhase(p.paging) == ReadyWithEdgeFailure ==> p.phase == ReadyWithEdgeFailure)
  }

  function Opened(project: string, height: int): Picker {
    StartInitial(Picker(project, InitialLoading, [], NO_PAGING, None, None, 0, 0, height, None))
  }
}
