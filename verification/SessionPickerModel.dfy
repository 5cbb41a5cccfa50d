/** A session tab as the program holds it: fields changed in place, each method tied to its step. */
module SessionPickerModel {
  import opened Prelude
  import opened PageWindow
  import opened SessionPicker
  import Viewport = PickerViewport

  method Flatten(segments: seq<Segment>) returns (sessions: seq<string>)
    ensures sessions == Sessions(segments)
  {
    sessions := [];
    var i := 0;
    assert segments[0..] == segments;
    while i < |segments|
      invariant i <= |segments|
      invariant sessions + Sessions(segments[i..]) == Sessions(segments)
    {
      assert segments[i..][1..] == segments[i + 1..];
      sessions := sessions + segments[i].sessions;
      i := i + 1;
    }
  }

  /** Which row is selected: the create row when it is there, otherwise the first row of the selected session. */
  method FindSelected(selected: Option<Selection>, createRow: bool, sessions: seq<string>) returns (index: Option<nat>)
    ensures var items := (if createRow then [Create] else []) + AsRows(sessions);
            index == if selected.None? then None else FirstIndex(items, selected.value)
  {
    if selected.None? {
      return None;
    }
    ghost var items := (if createRow then [Create] else []) + AsRows(sessions);
    if selected.value.Create? {
      if createRow {
        FirstIndexIsFirst(items, 0);
        return Some(0);
      }
      return None;
    }
    var row := if createRow then 1 else 0;
    ghost var base := row;
    var i := 0;
    while i < |sessions|
      invariant i <= |sessions| && row == base + i
      invariant forall j :: 0 <= j < row ==> items[j] != selected.value
    {
      if sessions[i] == selected.value.id {
        assert items[row] == selected.value;
        FirstIndexIsFirst(items, row);
        return Some(row);
      }
      i, row := i + 1, row + 1;
    }
    index := None;
  }

  class TabModel {
    const project: string
    const category: Category
    const window: Window<Segment>
    var phase: BodyPhase
    var bodyRequest: Option<BodyRequest>
    var refreshPending: bool
    var selected: Option<Selection>
    var offset: nat

    function State(): Tab
      reads this, window
    {
      Tab(project, category, window.segments, window.Paged(), phase, bodyRequest, refreshPending, selected, offset)
    }

    constructor (project: string, category: Category)
      ensures State() == Opened(project, category) && fresh(window)
    {
      this.project, this.category := project, category;
      phase, bodyRequest, refreshPending, offset := InitialLoading, None, false, 0;
      selected := if category == Main then Some(Create) else None;
      window := new Window<Segment>();
      new;
      StartBodyRequest(false);
    }

    method SelectedRow() returns (index: Option<nat>)
      ensures index == SelectedIndex(State())
    {
      var sessions := Flatten(window.segments);
      index := FindSelected(selected, IncludesCreateRow(State()), sessions);
    }

    method RowCount() returns (count: nat)
      ensures count == |Items(State())|
    {
      var sessions := Flatten(window.segments);
      count := |sessions| + (if IncludesCreateRow(State()) then 1 else 0);
    }

    method SelectRow(index: int)
      modifies this`selected
      ensures State() == SelectIndex(old(State()), index)
    {
      var sessions := Flatten(window.segments);
      var createRow := IncludesCreateRow(State());
      if index < 0 || index >= |sessions| + (if createRow then 1 else 0) {
        return;
      }
      if createRow && index == 0 {
        selected := Some(Create);
        return;
      }
      selected := Some(Session(sessions[if createRow then index - 1 else index]));
    }

    method ScrollToSelected(screen: Screen)
      modifies this`offset
      ensures State() == EnsureSelectedVisible(old(State()), screen)
    {
      var index := SelectedRow();
      if index.None? {
        offset := 0;
        return;
      }
      var count := RowCount();
      var listing := Viewport.Listing(count, screen.hasPreview, screen.budget);
      offset := Viewport.EnsureVisible(listing, index.value, offset);
      Viewport.LeastOffsetIsUnique(listing, index.value, offset, Viewport.LeastVisible(listing, index.value));
    }

    method SelectVisible(index: int, screen: Screen)
      modifies this`selected, this`offset
      ensures State() == SelectVisibly(old(State()), index, screen)
    {
      SelectRow(index);
      ScrollToSelected(screen);
    }

    method Reset()
      modifies this, window
      ensures State() == ResetForFreshLoad(old(State()))
    {
      window.Reset();
      phase := InitialLoading;
      offset := 0;
      selected := None;
      if category == Main {
        selected := Some(Create);
      }
    }

    method StartBodyRequest(retry: bool)
      modifies this, window
      ensures State() == StartBody(old(State()), retry)
    {
      if bodyRequest.Some? || HasPending(window.Paged()) {
        return;
      }
      if retry {
        refreshPending := false;
        Reset();
      }
      window.generation := window.generation + 1;
      bodyRequest := Some(BodyRequest(retry, window.generation, 0));
      phase := InitialLoading;
    }

    method StartDirectionalRequest(requestedOffset: int, move: int) returns (sent: Option<Request>)
      modifies window
      ensures State() == StartDirectional(old(State()), requestedOffset, move)
      ensures sent.Some? ==> Active(window.Paged(), sent.value)
      ensures sent.Some? <==> !Busy(old(State()))
    {
      if bodyRequest.Some? || HasPending(window.Paged()) {
        return None;
      }
      var direction := if move < 0 then Previous else Next;
      sent := window.BeginRequest(direction, Intent(requestedOffset, None, false, false, 0, 0, move));
    }

    /** A catalog change: the tab is loaded afresh, now or as soon as its outstanding request is answered. */
    method CatalogChange()
      modifies this, window
      ensures State() == Step(old(State()), CatalogChanged)
    {
      refreshPending := true;
      StartBodyRequest(true);
    }

    method FailLoad()
      modifies this, window
      ensures State() == LoadFailed(old(State()))
    {
      Reset();
      phase := BodyFailed;
    }

    method ReplacePages(requestedOffset: int, r: Response)
      modifies this, window
      ensures State() == ReplaceSegments(old(State()), requestedOffset, r)
    {
      window.segments := [SegmentFrom(requestedOffset, r)];
      if |r.sessions| == 0 {
        window.segments := [];
        phase := Empty;
        selected := if category == Main then Some(Create) else None;
        return;
      }
      phase := Ready;
    }

    method JoinPage(move: int, s: Segment)
      requires move != 0
      modifies this, window
      ensures State() == Joined(old(State()), move, s)
    {
      if move > 0 {
        window.segments := AppendBounded(window.segments, s);
        if |s.sessions| > 0 {
          selected := Some(Session(s.sessions[0]));
        }
      } else {
        window.segments := PrependBounded(window.segments, s);
        if |s.sessions| > 0 {
          selected := Some(Session(s.sessions[|s.sessions| - 1]));
        }
      }
      phase := Ready;
    }

    method JoinVisibly(move: int, s: Segment, screen: Screen)
      requires move != 0
      modifies this, window
      ensures State() == JoinedVisibly(old(State()), move, s, screen)
    {
      JoinPage(move, s);
      ScrollToSelected(screen);
    }

    method TakeBody(m: Message, screen: Screen)
      modifies this, window
      ensures State() == BodyLoaded(old(State()), m, screen)
    {
      bodyRequest := None;
      if m.answer.LoadError? || !ValidPage(m.answer.response, project, category) {
        FailLoad();
        return;
      }
      ReplacePages(m.requestedOffset, m.answer.response);
      ScrollToSelected(screen);
    }

    method TakeDirectional(m: Message, screen: Screen)
      requires m.pageRequest.Some?
      modifies this, window
      ensures State() == DirectionalLoaded(old(State()), m, screen)
    {
      var r := m.pageRequest.value;
      if m.answer.LoadError? || !ValidPage(m.answer.response, project, category) {
        FailLoad();
        return;
      }
      var _ := window.CompleteRequest(r);
      if r.move == 0 {
        FailLoad();
        return;
      }
      JoinVisibly(r.move, SegmentFrom(m.requestedOffset, m.answer.response), screen);
    }

    method ApplyPageLoaded(m: Message, screen: Screen)
      modifies this, window
      ensures State() == PageLoaded(old(State()), m, screen)
    {
      if && bodyRequest.Some? && bodyRequest.value.generation == m.generation
         && bodyRequest.value.requestedOffset == m.requestedOffset {
        TakeBody(m, screen);
        return;
      }
      if m.pageRequest.None? {
        return;
      }
      var active := RequestFor(window.Paged(), m.pageRequest.value.direction);
      if active.None? || active.value != m.pageRequest.value {
        return;
      }
      TakeDirectional(m, screen);
    }

    method PageArrived(m: Message, screen: Screen)
      modifies this, window
      ensures State() == Step(old(State()), Arrived(m, screen))
    {
      ApplyPageLoaded(m, screen);
      if refreshPending {
        StartBodyRequest(true);
      }
    }

    method DecideRow(delta: int) returns (m: Move)
      ensures m == RowMove(State(), delta)
    {
      if phase != Ready && phase != Empty {
        return Stay;
      }
      var index := SelectedRow();
      var count := RowCount();
      if index.None? {
        return if count > 0 then Select(0) else Stay;
      }
      var next := index.value + delta;
      if 0 <= next < count {
        return Select(next);
      }
      if (delta > 0 && window.nextEdge.request.Some?) || (delta < 0 && window.previousEdge.request.Some?) {
        return Stay;
      }
      var target := EdgeTarget(State(), delta);
      m := if target.Some? then Ask(target.value) else Stay;
    }

    method RowsOnScreen(screen: Screen) returns (n: nat)
      ensures n == ScreenRows(State(), screen)
    {
      var count := RowCount();
      var shown := Viewport.ComputeVisibleRows(Viewport.Listing(count, screen.hasPreview, screen.budget), offset);
      n := if |shown| < 1 then 1 else |shown|;
    }

    method DecideScreen(direction: int, rows: nat) returns (m: Move)
      ensures m == ScreenMove(State(), direction, rows)
    {
      if phase != Ready && phase != Empty {
        return Stay;
      }
      var index := SelectedRow();
      var count := RowCount();
      if index.None? {
        return if count == 0 then Stay else if direction > 0 then Select(0) else Select(count - 1);
      }
      var next := if direction > 0 then index.value + rows else index.value - rows;
      if 0 <= next < count {
        return Select(next);
      }
      if (direction > 0 && window.nextEdge.request.Some?) || (direction < 0 && window.previousEdge.request.Some?) {
        return Stay;
      }
      var target := EdgeTarget(State(), direction);
      if target.Some? {
        return Ask(target.value);
      }
      m := if count > 0 then Select(if direction > 0 then count - 1 else 0) else Stay;
    }

    method Perform(m: Move, delta: int, screen: Screen)
      modifies this, window
      ensures State() == Moved(old(State()), m, delta, screen)
    {
      match m {
        case Stay =>
        case Select(index) => SelectVisible(index, screen);
        case Ask(target) => var _ := StartDirectionalRequest(target, delta);
      }
    }

    method MoveRow(delta: int, screen: Screen)
      modifies this, window
      ensures State() == MoveSelection(old(State()), delta, screen)
    {
      var m := DecideRow(delta);
      Perform(m, delta, screen);
    }

    method MoveScreen(direction: int, screen: Screen)
      modifies this, window
      ensures State() == MoveSelectionPage(old(State()), direction, screen)
    {
      var rows := RowsOnScreen(screen);
      var m := DecideScreen(direction, rows);
      Perform(m, direction, screen);
    }
  }
}
