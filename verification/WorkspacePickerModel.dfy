/** The workspace picker as the program holds it: fields changed in place, each method tied to its step. */
module WorkspacePickerModel {
  import opened Prelude
  import opened PageWindow
  import opened WorkspacePicker
  import WorkspaceRuns
  import Viewport = PickerViewport

  lemma RowsFrom(segments: seq<Segment>, i: nat)
    requires i < |segments|
    ensures Rows(segments[i..]) == segments[i].workspaces + Rows(segments[i + 1..])
  {
    assert segments[i..][1..] == segments[i + 1..];
  }

  method Flatten(segments: seq<Segment>) returns (rows: seq<Workspace>)
    ensures rows == Rows(segments)
  {
    rows := [];
    var i := 0;
    assert segments[0..] == segments;
    while i < |segments|
      invariant i <= |segments|
      invariant rows + Rows(segments[i..]) == Rows(segments)
    {
      RowsFrom(segments, i);
      rows := rows + segments[i].workspaces;
      i := i + 1;
    }
  }

  /** The row at an index, named by its page. */
  method Locate(segments: seq<Segment>, index: nat) returns (o: Option<Occurrence>)
    ensures o == OccurrenceAt(segments, index)
  {
    var count := 0;
    var i := 0;
    assert segments[0..] == segments;
    while i < |segments|
      invariant i <= |segments| && 0 <= count <= index
      invariant OccurrenceAt(segments[i..], index - count) == OccurrenceAt(segments, index)
    {
      assert segments[i..][1..] == segments[i + 1..];
      if index < count + |segments[i].workspaces| {
        return Some(OccurrenceIn(segments[i], index - count));
      }
      count := count + |segments[i].workspaces|;
      i := i + 1;
    }
    o := None;
  }

  /** The rows on the pages before page i. */
  function RowsBefore(segments: seq<Segment>, i: nat): nat
    requires i <= |segments|
  {
    if i == 0 then 0 else RowsBefore(segments, i - 1) + |segments[i - 1].workspaces|
  }

  lemma {:induction false} RowsBeforeTail(segments: seq<Segment>, i: nat)
    requires 1 <= i <= |segments|
    ensures RowsBefore(segments, i) == |segments[0].workspaces| + RowsBefore(segments[1..], i - 1)
    decreases i
  {
    if i > 1 {
      RowsBeforeTail(segments, i - 1);
      assert segments[1..][i - 2] == segments[i - 1];
    }
  }

  lemma NamedInTail(o: Occurrence, segments: seq<Segment>, i: nat)
    requires 0 < i <= |segments| && (forall k :: 0 <= k < i ==> !Names(o, segments[k])) && (i < |segments| ==> Names(o, segments[i]))
    ensures forall k :: 0 <= k < i - 1 ==> !Names(o, segments[1..][k])
    ensures i < |segments| ==> Names(o, segments[1..][i - 1])
  {
  }

  lemma SkippedPage(o: Occurrence, segments: seq<Segment>, rest: seq<Segment>)
    requires segments != [] && rest == segments[1..] && !Names(o, segments[0])
    ensures IndexOf(o, segments) ==
            if IndexOf(o, rest).None? then None else Some(|segments[0].workspaces| + IndexOf(o, rest).value)
  {
  }

  /** The first page that names the row decides where it is. */
  lemma {:induction false} IndexByPage(o: Occurrence, segments: seq<Segment>, i: nat)
    requires i <= |segments| && (forall k :: 0 <= k < i ==> !Names(o, segments[k])) && (i < |segments| ==> Names(o, segments[i]))
    ensures IndexOf(o, segments) == if i < |segments| then Some(RowsBefore(segments, i) + o.index) else None
    decreases i
  {
    if i > 0 {
      var rest := segments[1..];
      NamedInTail(o, segments, i);
      IndexByPage(o, rest, i - 1);
      SkippedPage(o, segments, rest);
      RowsBeforeTail(segments, i);
    }
  }

  /** Where a remembered row is now, if it is still resident. */
  method Find(o: Option<Occurrence>, segments: seq<Segment>) returns (index: Option<nat>)
    ensures index == if o.Some? then IndexOf(o.value, segments) else None
  {
    if o.None? {
      return None;
    }
    var count: nat := 0;
    var i := 0;
    while i < |segments| && !Names(o.value, segments[i])
      invariant i <= |segments| && count == RowsBefore(segments, i)
      invariant forall k :: 0 <= k < i ==> !Names(o.value, segments[k])
    {
      count := count + |segments[i].workspaces|;
      i := i + 1;
    }
    IndexByPage(o.value, segments, i);
    index := if i < |segments| then Some(count + o.value.index) else None;
  }

  method IsResident(o: Option<Occurrence>, segments: seq<Segment>) returns (resident: bool)
    ensures resident == Resident(o, segments)
  {
    if o.None? {
      return true;
    }
    FoundWhenNamed(o.value, segments);
    var i := 0;
    while i < |segments|
      invariant i <= |segments|
      invariant forall k :: 0 <= k < i ==> !Names(o.value, segments[k])
    {
      if Names(o.value, segments[i]) {
        return true;
      }
      i := i + 1;
    }
    resident := false;
  }

  class PickerModel {
    const project: string
    const window: Window<Segment>
    var phase: Phase
    var selected: Option<Occurrence>
    var viewport: Option<Occurrence>
    var cursor: int
    var offset: nat
    var height: int
    var result: Option<Workspace>

    function State(): Picker
      reads this, window
    {
      Picker(project, phase, window.segments, window.Paged(), selected, viewport, cursor, offset, height, result)
    }

    constructor (project: string, height: int)
      ensures State() == Opened(project, height) && fresh(window)
    {
      this.project := project;
      phase, selected, viewport, cursor, offset := InitialLoading, None, None, 0, 0;
      this.height, result := height, None;
      window := new Window<Segment>();
      new;
      var _ := StartFirstPage();
    }

    /** Begins loading the first page, unless that is already under way. */
    method StartFirstPage() returns (sent: Option<Request>)
      modifies this, window
      ensures State() == StartInitial(old(State()))
      ensures sent.Some? <==> RequestFor(old(window.Paged()), Initial).None?
      ensures sent.Some? ==> Active(window.Paged(), sent.value)
    {
      sent := window.BeginRequest(Initial, Intent(0, None, false, false, 0, 0, 0));
      if sent.None? {
        return;
      }
      phase := InitialLoading;
      window.segments := [];
      selected, viewport := None, None;
      cursor, offset := 0, 0;
    }

    method EnsureCursorVisible(status: bool)
      modifies this
      ensures State() == EnsureVisible(old(State()), status)
    {
      var rows := Flatten(window.segments);
      if |rows| == 0 {
        cursor, offset, viewport := 0, 0, None;
        return;
      }
      cursor := Clamped(cursor, |rows|);
      var listing := ListingOf(|rows|, LineBudget(State(), status));
      offset := Viewport.EnsureVisible(listing, cursor, offset);
      Viewport.LeastOffsetIsUnique(listing, cursor, offset, Viewport.LeastVisible(listing, cursor));
      viewport := Locate(window.segments, offset);
    }

    method SelectRow(index: int, status: bool)
      modifies this
      ensures State() == SelectIndex(old(State()), index, status)
    {
      var rows := Flatten(window.segments);
      if index < 0 || index >= |rows| {
        return;
      }
      cursor := index;
      selected := Locate(window.segments, index);
      EnsureCursorVisible(status);
    }

    method VisibleDistance(status: bool) returns (n: int)
      ensures n == PageDistance(State(), status)
    {
      var rows := Flatten(window.segments);
      var shown := Viewport.ComputeVisibleRows(ListingOf(|rows|, LineBudget(State(), status)), offset);
      n := if |shown| < 1 then 1 else |shown|;
    }

    /** Asks for the page past an edge; the request sent, if any, is the one now in flight there. */
    method RequestPage(d: Direction, crossing: bool, pageMove: bool, visible: int) returns (sent: Option<Request>)
      requires d != Initial
      modifies window
      ensures State() == RequestEdge(old(State()), d, crossing, pageMove, visible)
      ensures sent.Some? ==> Active(window.Paged(), sent.value)
      ensures sent.Some? <==> window.generation != old(window.generation)
    {
      if |window.segments| == 0 {
        return None;
      }
      var edge := EdgeOf(window.Paged(), d);
      if edge.request.Some? || edge.state == Exhausted {
        return None;
      }
      var overflow := PageMoveOverflow(State(), d, pageMove, visible);
      var target := EdgeOffset(window.segments, d);
      if edge.state == Failed {
        if edge.failedRequest.None? || target.None? {
          return None;
        }
        var distance := if visible < 1 then edge.failedRequest.value.visibleDistance else visible;
        sent := window.BeginRequest(d, Intent(target.value, BoundaryOf(window.segments, d), crossing, pageMove,
                                              distance, overflow, edge.failedRequest.value.move));
        return;
      }
      if target.None? {
        window.SetEdge(d, edge.(state := Exhausted));
        return None;
      }
      sent := window.BeginRequest(d, Intent(target.value, BoundaryOf(window.segments, d), crossing, pageMove, visible,
                                            overflow, 0));
    }

    method PrefetchAtSelection(delta: int, status: bool)
      modifies window
      ensures State() == Prefetch(old(State()), delta, status)
    {
      if |window.segments| == 0 {
        return;
      }
      var visible := VisibleDistance(status);
      var rows := Flatten(window.segments);
      if delta < 0 && cursor < visible {
        var _ := RequestPage(Previous, false, false, 0);
      } else if delta > 0 && |rows| - 1 - cursor < visible {
        var _ := RequestPage(Next, false, false, 0);
      }
    }

    method SelectAndPrefetch(next: int, delta: int, status: bool)
      modifies this, window
      ensures State() == MoveWithin(old(State()), next, delta, status)
    {
      SelectRow(next, status);
      PrefetchAtSelection(delta, status);
    }

    method Move(delta: int, pageMove: bool, distance: int, status: bool)
      requires delta in {-1, 1}
      modifies this, window
      ensures State() == MoveBy(old(State()), delta, pageMove, distance, status)
    {
      var rows := Flatten(window.segments);
      var next := cursor + delta * (if pageMove then distance else 1);
      assert next == Target(State(), delta, pageMove, distance);
      if 0 <= next < |rows| {
        SelectAndPrefetch(next, delta, status);
      } else {
        var _ := RequestPage(if delta > 0 then Next else Previous, true, pageMove, if pageMove then distance else 0);
      }
    }

    method MoveCursorBy(delta: int, status: bool)
      requires delta in {-1, 1}
      modifies this, window
      ensures State() == MoveCursor(old(State()), delta, status)
    {
      if phase != Ready && phase != ReadyWithEdgeFailure {
        return;
      }
      var rows := Flatten(window.segments);
      if |rows| > 0 {
        Move(delta, false, 0, status);
      }
    }

    method MoveCursorPage(direction: int, status: bool)
      requires direction in {-1, 1}
      modifies this, window
      ensures State() == MovePage(old(State()), direction, status)
    {
      if phase != Ready && phase != ReadyWithEdgeFailure {
        return;
      }
      var rows := Flatten(window.segments);
      if |rows| > 0 {
        var visible := VisibleDistance(status);
        Move(direction, true, visible, status);
      }
    }

    method PressEnter()
      modifies this, window
      ensures State() == Enter(old(State()))
    {
      if phase == FirstPageFailed || phase == Empty {
        var _ := StartFirstPage();
        return;
      }
      if phase != Ready && phase != ReadyWithEdgeFailure {
        return;
      }
      var rows := Flatten(window.segments);
      if |rows| == 0 || cursor < 0 || cursor >= |rows| {
        return;
      }
      result := Some(rows[cursor]);
    }

    method InvalidateStaleFailure(d: Direction)
      requires d != Initial
      modifies window
      ensures window.segments == old(window.segments)
      ensures window.Paged() == WithEdge(old(window.Paged()), d,
                                         DropStaleFailure(EdgeOf(old(window.Paged()), d), old(window.segments)))
    {
      var edge := EdgeOf(window.Paged(), d);
      if edge.state != Failed || edge.failedRequest.None? {
        return;
      }
      if BoundaryMatches(window.segments, edge.failedRequest.value) {
        return;
      }
      window.SetEdge(d, edge.(state := Unknown, failedRequest := None));
    }

    method SyncBoundaryEdges()
      modifies window
      ensures window.segments == old(window.segments)
      ensures window.Paged() == SyncEdges(old(window.Paged()), old(window.segments))
    {
      if |window.segments| == 0 {
        return;
      }
      InvalidateStaleFailure(Previous);
      InvalidateStaleFailure(Next);
      if window.previousEdge.state != Failed && window.previousEdge.state != Loading {
        var state := if window.segments[0].offset == 0 then Exhausted else Unknown;
        window.previousEdge := window.previousEdge.(state := state);
      }
      if window.nextEdge.state != Failed && window.nextEdge.state != Loading {
        var last := window.segments[|window.segments| - 1];
        window.nextEdge := window.nextEdge.(state := if last.nextOffset.None? then Exhausted else Unknown);
      }
    }

    method RemapCursor(status: bool)
      modifies this
      ensures State() == Remapped(old(State()), status)
    {
      var index := Find(selected, window.segments);
      if index.None? {
        SelectRow(0, status);
        return;
      }
      cursor := index.value;
      var top := Find(viewport, window.segments);
      if top.Some? {
        offset := top.value;
      } else {
        var rows := Flatten(window.segments);
        var listing := ListingOf(|rows|, LineBudget(State(), status));
        offset := Viewport.EnsureVisible(listing, cursor, offset);
        Viewport.LeastOffsetIsUnique(listing, cursor, offset, Viewport.LeastVisible(listing, cursor));
      }
    }

    method FailLoad(r: Request)
      modifies this, window
      ensures State() == FailPage(old(State()), r)
    {
      if r.direction == Initial {
        var _ := window.CompleteRequest(r);
        phase := FirstPageFailed;
        window.segments := [];
        selected, viewport := None, None;
        cursor, offset := 0, 0;
        return;
      }
      var _ := window.FailRequest(r);
      phase := ReadyWithEdgeFailure;
    }

    method CompleteStale(r: Request)
      requires r.direction != Initial
      modifies this, window
      ensures State() == StalePage(old(State()), r)
    {
      var answered := window.CompleteRequest(r);
      if !answered {
        return;
      }
      window.SetEdge(r.direction, EdgeOf(window.Paged(), r.direction).(state := Unknown));
      SyncBoundaryEdges();
      phase := FailurePhase(window.Paged());
    }

    method TakeFirstPage(r: Request, s: Segment, status: bool)
      modifies this, window
      ensures State() == FirstPage(old(State()), r, s, status)
    {
      var _ := window.CompleteRequest(r);
      if |s.workspaces| == 0 {
        phase := Empty;
        window.previousEdge := window.previousEdge.(state := Exhausted);
        window.nextEdge := window.nextEdge.(state := Exhausted);
        return;
      }
      if |s.workspaces| == 1 && s.nextOffset.None? {
        result := Some(s.workspaces[0]);
        return;
      }
      window.segments := [s];
      SelectRow(0, status);
      window.previousEdge := window.previousEdge.(state := Exhausted);
      window.nextEdge := window.nextEdge.(state := if s.nextOffset.None? then Exhausted else Unknown);
      phase := Ready;
    }

    method TakeEmptyEdge(r: Request)
      requires r.direction != Initial
      modifies this, window
      ensures State() == EmptyEdge(old(State()), r)
    {
      var _ := window.CompleteRequest(r);
      var edge := EdgeOf(window.Paged(), r.direction);
      window.SetEdge(r.direction, edge.(state := Exhausted, requestedOffset := r.offset, generation := r.generation));
      phase := FailurePhase(window.Paged());
    }

    method RejectPage(r: Request)
      requires r.direction != Initial
      modifies this, window
      ensures State() == Rejected(old(State()), r)
    {
      var _ := window.CompleteRequest(r);
      window.SetEdge(r.direction, EdgeOf(window.Paged(), r.direction).(state := Unknown));
      phase := FailurePhase(window.Paged());
    }

    method Grow(r: Request, s: Segment, candidate: seq<Segment>)
      requires r.direction != Initial && s.workspaces != [] && MoveFits(r)
      modifies this, window
      ensures State() == Grown(old(State()), r, s, candidate)
    {
      var _ := window.CompleteRequest(r);
      window.segments := candidate;
      var state := Unknown;
      if r.direction == Next && s.nextOffset.None? {
        state := Exhausted;
      }
      if r.direction == Previous && s.offset == 0 {
        state := Exhausted;
      }
      window.SetEdge(r.direction, EdgeOf(window.Paged(), r.direction).(state := state));
      SyncBoundaryEdges();
      phase := FailurePhase(window.Paged());
      if r.crossing {
        selected := Some(OccurrenceIn(s, LandingRow(r, |s.workspaces|)));
      }
    }

    method Resettle(crossing: bool, status: bool)
      modifies this
      ensures State() == Resettled(old(State()), crossing, status)
    {
      RemapCursor(status);
      if crossing {
        EnsureCursorVisible(status);
      }
    }

    method TakePage(r: Request, s: Segment, status: bool)
      requires r.direction != Initial && s.workspaces != [] && MoveFits(r)
      modifies this, window
      ensures State() == Install(old(State()), r, s, status)
    {
      var candidate := if r.direction == Next then AppendBounded(window.segments, s) else PrependBounded(window.segments, s);
      var keepsSelected := IsResident(selected, candidate);
      var keepsViewport := IsResident(viewport, candidate);
      if !keepsSelected || !keepsViewport {
        RejectPage(r);
      } else {
        Grow(r, s, candidate);
        Resettle(r.crossing, status);
      }
    }

    method TakeAnswer(r: Request, s: Segment, status: bool)
      requires MoveFits(r)
      modifies this, window
      ensures State() ==
              if r.direction == Initial then FirstPage(old(State()), r, s, status)
              else if s.workspaces == [] then EmptyEdge(old(State()), r)
              else Install(old(State()), r, s, status)
    {
      if r.direction == Initial {
        TakeFirstPage(r, s, status);
      } else if |s.workspaces| == 0 {
        TakeEmptyEdge(r);
      } else {
        TakePage(r, s, status);
      }
    }

    method Deliver(r: Request, a: Answer, status: bool)
      requires Active(window.Paged(), r) ==> MoveFits(r)
      modifies this, window
      ensures State() == PageLoaded(old(State()), r, a, status)
    {
      var active := RequestFor(window.Paged(), r.direction);
      if active.None? || active.value != r {
        return;
      }
      if r.direction != Initial && !BoundaryMatches(window.segments, r) {
        CompleteStale(r);
        return;
      }
      if a.LoadError? || !ValidPage(a.response, project, r.offset) {
        FailLoad(r);
        return;
      }
      TakeAnswer(r, SegmentFrom(r, a.response.value), status);
    }

    /** Deals with the answer to a page load. The picker stays sound, so the landing row of a page always exists. */
    method ApplyPageLoaded(r: Request, a: Answer, status: bool)
      requires Sound(State())
      modifies this, window
      ensures Sound(State())
      ensures old(Active(window.Paged(), r)) ==> MoveFits(r)
      ensures State() == PageLoaded(old(State()), r, a, status)
    {
      if Active(window.Paged(), r) {
        WorkspaceRuns.ArriveIsSound(State(), r, a, status);
      }
      Deliver(r, a, status);
    }
  }
}
