/** What the keys of the workspace picker do: which row they select, what they choose, and what they ask for. */
module WorkspaceKeys {
  import opened Prelude
  import opened PageWindow
  import opened WorkspacePicker
  import opened WorkspaceRuns
  import Viewport = PickerViewport

  /** How many rows are on screen, counted as one at least. */
  function Screenful(p: Picker, status: bool): int {
    var rows := |Viewport.VisibleRows(ListingOf(|Rows(p.segments)|, LineBudget(p, status)), p.offset)|;
    if rows == 0 then 1 else rows
  }

  /** The row a key aims at, if it is one that moves. */
  function Aim(p: Picker, action: Action): Option<int> {
    match action
    case ArrowUp(_) => Some(p.cursor - 1)
    case ArrowDown(_) => Some(p.cursor + 1)
    case PageUp(status) => Some(p.cursor - Screenful(p, status))
    case PageDown(status) => Some(p.cursor + Screenful(p, status))
    case _ => None
  }

  predicate OnRow(p: Picker, row: int) {
    && 0 <= row < |Rows(p.segments)| && p.cursor == row && FoundAt(p.selected, p.segments, row)
    && p.selected.value.workspace == Rows(p.segments)[row].id
  }

  /** The scroll position is the least from which the row can be seen, as far as lines go with this picker. */
  ghost predicate ScrolledTo(p: Picker, status: bool, row: nat, offset: nat) {
    Viewport.LeastOffset(ListingOf(|Rows(p.segments)|, LineBudget(p, status)), row, offset)
  }

  lemma SelectedRow(p: Picker, row: int, status: bool)
    requires Sound(p) && ReadyPhase(p.phase) && 0 <= row < |Rows(p.segments)|
    ensures var q := SelectIndex(p, row, status);
            OnRow(q, row) && ScrolledTo(p, status, row, q.offset) && q.result == p.result
            && q.segments == p.segments && q.paging == p.paging && q.phase == p.phase
  {
    SelectIsSound(p, row, status);
  }

  lemma PrefetchOnlyAsks(p: Picker, delta: int, status: bool)
    requires Sound(p) && ReadyPhase(p.phase)
    ensures var q := Prefetch(p, delta, status); q == p.(paging := q.paging)
  {
    RequestOnlyAsks(p, Previous, false, false, 0);
    RequestOnlyAsks(p, Next, false, false, 0);
  }

  lemma RequestOnlyAsks(p: Picker, d: Direction, crossing: bool, pageMove: bool, visible: int)
    requires d != Initial
    ensures var q := RequestEdge(p, d, crossing, pageMove, visible); q == p.(paging := q.paging)
  {
  }

  lemma MoveSelects(p: Picker, delta: int, pageMove: bool, distance: int, status: bool)
    requires Sound(p) && ReadyPhase(p.phase) && delta in {-1, 1} && (pageMove ==> distance >= 1)
    ensures var aim := if pageMove then p.cursor + delta * distance else p.cursor + delta;
            var q := MoveBy(p, delta, pageMove, distance, status);
            && q.result == p.result && q.segments == p.segments
            && (if 0 <= aim < |Rows(p.segments)| then OnRow(q, aim) && ScrolledTo(p, status, aim, q.offset)
                else q == p.(paging := q.paging))
  {
    var aim := Target(p, delta, pageMove, distance);
    if 0 <= aim < |Rows(p.segments)| {
      SelectedRow(p, aim, status);
      SelectIsSound(p, aim, status);
      PrefetchOnlyAsks(SelectIndex(p, aim, status), delta, status);
    } else {
      RequestOnlyAsks(p, if delta > 0 then Next else Previous, true, pageMove, if pageMove then distance else 0);
    }
  }

  /**
   In a sound ready picker an arrow key selects the next row its way and a page key the row a screenful away, scrolled to
   just where it can be seen; past the end of the resident rows they leave rows and selection alone.
   */
  lemma KeysSelectWhereTheyAim(p: Picker, action: Action)
    requires Sound(p) && ReadyPhase(p.phase) && Aim(p, action).Some?
    ensures var aim, q := Aim(p, action).value, Step(p, action);
            && q.result == p.result && q.segments == p.segments
            && (if 0 <= aim < |Rows(p.segments)| then OnRow(q, aim) && ScrolledTo(p, action.status, aim, q.offset)
                else q == p.(paging := q.paging))
  {
    var delta := if action.ArrowUp? || action.PageUp? then -1 else 1;
    ContiguousIsDistinct(p.segments, p.paging.generation);
    MoveSelects(p, delta, false, 0, action.status);
    MoveSelects(p, delta, true, Screenful(p, action.status), action.status);
  }

  /** The selected row comes within a screenful of the end it moves to. */
  predicate Nears(q: Picker, d: Direction, status: bool) {
    if d == Previous then q.cursor < Screenful(q, status) else |Rows(q.segments)| - q.cursor <= Screenful(q, status)
  }

  /** A row move near an end has the page past it on the way, or there is none; elsewhere nothing is asked for. */
  lemma MovesPrefetch(p: Picker, row: int, delta: int, status: bool)
    requires Sound(p) && ReadyPhase(p.phase) && delta in {-1, 1} && 0 <= row < |Rows(p.segments)|
    ensures var d := if delta > 0 then Next else Previous;
            var moved := SelectIndex(p, row, status);
            var q := MoveWithin(p, row, delta, status);
            if Nears(moved, d, status) then EdgeOf(q.paging, d).state in {Loading, Exhausted} else q.paging == p.paging
  {
    SelectedRow(p, row, status);
    SelectIsSound(p, row, status);
    var moved := SelectIndex(p, row, status);
    RequestEdgePages(moved, if delta > 0 then Next else Previous, false, false, 0);
  }

  /** Resizing scrolls to just where the selected row can be seen in the new height, and selects nothing else. */
  lemma ResizeShowsTheSelection(p: Picker, height: int, status: bool)
    requires Sound(p) && ReadyPhase(p.phase)
    ensures var q := Step(p, Resize(height, status));
            && q.height == (if height > 0 then height else p.height)
            && OnRow(q, p.cursor) && q.selected == p.selected && q.segments == p.segments && q.result == p.result
            && ScrolledTo(q, status, p.cursor, q.offset)
  {
    HeightIsSound(p, height);
  }

  // --- What is chosen ---

  /** The answer to the first request is one workspace, with nothing after it. */
  predicate OnlyOne(p: Picker, action: Action) {
    && action.Arrive? && p.paging.request == Some(action.request) && action.request.direction == Initial
    && action.answer.Loaded? && action.answer.response.Some?
    && var r := action.answer.response.value;
       r.projectId == p.project && r.offset == action.request.offset && |r.workspaces| == 1 && r.nextOffset.None?
  }

  lemma KeysChooseNothing(p: Picker, action: Action)
    requires Sound(p) && !action.PressEnter? && !action.Arrive?
    ensures Step(p, action).result == p.result
  {
    if ReadyPhase(p.phase) {
      if action.Resize? {
        ResizeShowsTheSelection(p, action.height, action.status);
      } else {
        KeysSelectWhereTheyAim(p, action);
      }
    }
  }

  lemma AnswersChoose(p: Picker, action: Action)
    requires Sound(p) && action.Arrive?
    ensures Step(p, action).result ==
            if OnlyOne(p, action) then Some(action.answer.response.value.workspaces[0]) else p.result
  {
  }

  /**
   In a sound picker, and so in every run: Enter chooses the workspace of the selected row; a first page that is a single
   workspace chooses that; and nothing else chooses anything.
   */
  lemma ChoosesExactly(p: Picker, action: Action)
    requires Sound(p)
    ensures var q := Step(p, action);
            if action.PressEnter? && ReadyPhase(p.phase) then
              && q == p.(result := q.result) && q.result.Some?
              && p.selected.Some? && IndexOf(p.selected.value, p.segments).Some?
              && q.result.value == Rows(p.segments)[IndexOf(p.selected.value, p.segments).value]
              && q.result.value.id == p.selected.value.workspace
            else q.result == if OnlyOne(p, action) then Some(action.answer.response.value.workspaces[0]) else p.result
  {
    if action.Arrive? {
      AnswersChoose(p, action);
    } else if !action.PressEnter? {
      KeysChooseNothing(p, action);
    }
  }

  /** Enter after a failure, or on an empty list, asks for the first page again. */
  lemma EnterRetries(p: Picker)
    requires Sound(p) && p.phase in {FirstPageFailed, Empty}
    ensures var q := Step(p, PressEnter);
            q.phase == InitialLoading && q.paging.request.Some? && q.paging.request.value.offset == 0 && q.result == p.result
  {
  }

  /** A first page of several rows, or with more to come, is shown from its first row on. */
  lemma FirstPageShowsItsFirstRow(p: Picker, action: Action)
    requires Sound(p) && action.Arrive? && p.paging.request == Some(action.request) && action.request.direction == Initial
    requires Usable(action.answer, p.project, action.request.offset)
    requires var r := action.answer.response.value; |r.workspaces| > 1 || (|r.workspaces| == 1 && r.nextOffset.Some?)
    ensures var q := Step(p, action);
            && q.phase == Ready && Rows(q.segments) == action.answer.response.value.workspaces
            && OnRow(q, 0) && q.offset == 0 && q.result == p.result
  {
    var s := SegmentFrom(action.request, action.answer.response.value);
    assert Rows([s]) == s.workspaces;
    FirstPageIsSound(p, action.request, action.answer, action.status);
  }
}
