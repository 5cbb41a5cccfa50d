/**
 The session picker's tabs: a paged list that is thrown away and loaded afresh whenever the session catalog changes.
 */
module SessionPicker {
  import opened Prelude
  import opened PageWindow
  import Viewport = PickerViewport

  const PAGE_SIZE := 50

  datatype Category = Main | Subagent

  datatype BodyPhase = InitialLoading | Ready | Empty | BodyFailed

  datatype BodyRequest = BodyRequest(retry: bool, generation: nat, requestedOffset: int)

  datatype Segment = Segment(requestedOffset: int, sessions: seq<string>, nextOffset: Option<int>)

  datatype Selection = Create | Session(id: string)

  datatype Response = Response(projectId: string, category: Category, sessions: seq<string>, nextOffset: Option<int>)

  datatype Answer = LoadError | Loaded(response: Response)

  datatype Message = Message(generation: nat, requestedOffset: int, pageRequest: Option<Request>, answer: Answer)

  /** The lines available for rows, and which rows have a preview. */
  datatype Screen = Screen(budget: int, hasPreview: nat -> bool)

  datatype Tab = Tab(
    project: string,
    category: Category,
    segments: seq<Segment>,
    paging: Paging,
    phase: BodyPhase,
    bodyRequest: Option<BodyRequest>,
    refreshPending: bool,
    selected: Option<Selection>,
    offset: nat)

  // --- Rows ---

  function Sessions(segments: seq<Segment>): seq<string> {
    if segments == [] then [] else segments[0].sessions + Sessions(segments[1..])
  }

  predicate ContainsNewestEdge(segments: seq<Segment>) {
    segments == [] || segments[0].requestedOffset == 0
  }

  predicate IncludesCreateRow(t: Tab) {
    t.category == Main && ContainsNewestEdge(t.segments)
  }

  function AsRows(ids: seq<string>): (rows: seq<Selection>)
    ensures |rows| == |ids| && forall i :: 0 <= i < |ids| ==> rows[i] == Session(ids[i])
  {
    seq(|ids|, i requires 0 <= i < |ids| => Session(ids[i]))
  }

  function CreateRows(t: Tab): seq<Selection> {
    if IncludesCreateRow(t) then [Create] else []
  }

  /** The rows in order: the create row first where there is one, then the resident sessions. */
  function Items(t: Tab): seq<Selection> {
    CreateRows(t) + AsRows(Sessions(t.segments))
  }

  /** The first position of a value. */
  function FirstIndex<T(==)>(s: seq<T>, x: T): (index: Option<nat>)
    ensures index.Some? <==> x in s
    ensures index.Some? ==> index.value < |s| && s[index.value] == x && forall j :: 0 <= j < index.value ==> s[j] != x
  {
    if s == [] then None
    else if s[0] == x then Some(0)
    else
      var later := FirstIndex(s[1..], x);
      if later.None? then None else Some(later.value + 1)
  }

  function SelectedIndex(t: Tab): Option<nat> {
    if t.selected.None? then None else FirstIndex(Items(t), t.selected.value)
  }

  function SelectIndex(t: Tab, index: int): Tab {
    if index < 0 || index >= |Items(t)| then t else t.(selected := Some(Items(t)[index]))
  }

  function ListingFor(t: Tab, screen: Screen): Viewport.Listing {
    Viewport.Listing(|Items(t)|, screen.hasPreview, screen.budget)
  }

  function EnsureSelectedVisible(t: Tab, screen: Screen): Tab {
    var selected := SelectedIndex(t);
    t.(offset := if selected.None? then 0 else Viewport.LeastVisible(ListingFor(t, screen), selected.value))
  }

  lemma FirstIndexIsFirst<T>(s: seq<T>, index: nat)
    requires index < |s|
    ensures FirstIndex(s, s[index]).Some? && FirstIndex(s, s[index]).value <= index
    ensures FirstIndex(s, s[index]).value == index <==> forall j :: 0 <= j < index ==> s[j] != s[index]
  {
  }

  /** Selecting a row and looking for it finds that row, exactly when no earlier row is the same session. */
  lemma SelectionRoundTrip(t: Tab, index: nat, items: seq<Selection>)
    requires items == Items(t) && index < |items|
    ensures SelectedIndex(SelectIndex(t, index)) == Some(index) <==> forall j :: 0 <= j < index ==> items[j] != items[index]
  {
    assert Items(SelectIndex(t, index)) == items;
    FirstIndexIsFirst(items, index);
  }

  // --- Requests ---

  function FirstSelection(c: Category): Option<Selection> {
    if c == Main then Some(Create) else None
  }

  function ResetForFreshLoad(t: Tab): Tab {
    t.(segments := [], paging := Cleared(t.paging), phase := InitialLoading, offset := 0,
       selected := FirstSelection(t.category))
  }

  predicate Busy(t: Tab) {
    t.bodyRequest.Some? || HasPending(t.paging)
  }

  function StartBody(t: Tab, retry: bool): Tab {
    if Busy(t) then t
    else
      var clean := if retry then ResetForFreshLoad(t).(refreshPending := false) else t;
      var generation := clean.paging.generation + 1;
      clean.(paging := clean.paging.(generation := generation),
             bodyRequest := Some(BodyRequest(retry, generation, 0)), phase := InitialLoading)
  }

  function StartDirectional(t: Tab, requestedOffset: int, move: int): Tab {
    if Busy(t) then t
    else
      t.(paging := Begin(t.paging, if move < 0 then Previous else Next,
                         Intent(requestedOffset, None, false, false, 0, 0, move)))
  }

  function PreviousOffset(segments: seq<Segment>): int
    requires segments != []
  {
    if segments[0].requestedOffset - PAGE_SIZE < 0 then 0 else segments[0].requestedOffset - PAGE_SIZE
  }

  predicate EdgeBusy(t: Tab, delta: int) {
    (delta > 0 && t.paging.nextEdge.request.Some?) || (delta < 0 && t.paging.previousEdge.request.Some?)
  }

  /** What walking off an edge asks for, if there is a page there. */
  function EdgeTarget(t: Tab, delta: int): Option<int> {
    if delta > 0 then (if t.segments == [] then None else t.segments[|t.segments| - 1].nextOffset)
    else if ContainsNewestEdge(t.segments) then None
    else Some(PreviousOffset(t.segments))
  }

  function SelectVisibly(t: Tab, index: int, screen: Screen): Tab {
    EnsureSelectedVisible(SelectIndex(t, index), screen)
  }

  /** What a key that moves the selection comes to. */
  datatype Move = Stay | Select(index: int) | Ask(offset: int)

  /** Past the resident rows there is a page to ask for, or nothing. */
  function Beyond(t: Tab, delta: int): Move {
    if EdgeBusy(t, delta) || EdgeTarget(t, delta).None? then Stay else Ask(EdgeTarget(t, delta).value)
  }

  function RowMove(t: Tab, delta: int): Move {
    if t.phase != Ready && t.phase != Empty then Stay
    else
      var index := SelectedIndex(t);
      if index.None? then (if |Items(t)| > 0 then Select(0) else Stay)
      else if 0 <= index.value + delta < |Items(t)| then Select(index.value + delta)
      else Beyond(t, delta)
  }

  function ScreenRows(t: Tab, screen: Screen): (n: nat)
    ensures n >= 1
  {
    var shown := |Viewport.VisibleRows(ListingFor(t, screen), t.offset)|;
    if shown < 1 then 1 else shown
  }

  /** A screenful, or at the end of the list the last row that way; `direction` is 1 or -1. */
  function ScreenMove(t: Tab, direction: int, rows: nat): Move {
    var count := |Items(t)|;
    if (t.phase != Ready && t.phase != Empty) then Stay
    else
      var index := SelectedIndex(t);
      if index.None? then (if count == 0 then Stay else if direction > 0 then Select(0) else Select(count - 1))
      else
        var next := if direction > 0 then index.value + rows else index.value - rows;
        if 0 <= next < count then Select(next)
        else if EdgeBusy(t, direction) || EdgeTarget(t, direction).Some? then Beyond(t, direction)
        else if count > 0 then Select(if direction > 0 then count - 1 else 0)
        else Stay
  }

  function Moved(t: Tab, m: Move, delta: int, screen: Screen): Tab {
    match m
    case Stay => t
    case Select(index) => SelectVisibly(t, index, screen)
    case Ask(offset) => StartDirectional(t, offset, delta)
  }

  function MoveSelection(t: Tab, delta: int, screen: Screen): Tab {
    Moved(t, RowMove(t, delta), delta, screen)
  }

  function MoveSelectionPage(t: Tab, direction: int, screen: Screen): Tab {
    Moved(t, ScreenMove(t, direction, ScreenRows(t, screen)), direction, screen)
  }

  // --- Answers ---

  predicate ValidPage(r: Response, project: string, category: Category) {
    r.projectId == project && r.category == category && |r.sessions| <= PAGE_SIZE
  }

  predicate Usable(t: Tab, a: Answer) {
    a.Loaded? && ValidPage(a.response, t.project, t.category)
  }

  function SegmentFrom(requestedOffset: int, r: Response): Segment {
    Segment(requestedOffset, r.sessions, r.nextOffset)
  }

  predicate AnswersBody(t: Tab, m: Message) {
    && t.bodyRequest.Some?
    && t.bodyRequest.value.generation == m.generation && t.bodyRequest.value.requestedOffset == m.requestedOffset
  }

  predicate AnswersPage(t: Tab, m: Message) {
    m.pageRequest.Some? && Active(t.paging, m.pageRequest.value)
  }

  function LoadFailed(t: Tab): Tab {
    ResetForFreshLoad(t).(phase := BodyFailed)
  }

  function ReplaceSegments(t: Tab, requestedOffset: int, r: Response): Tab {
    if r.sessions == [] then t.(segments := [], phase := Empty, selected := FirstSelection(t.category))
    else t.(segments := [SegmentFrom(requestedOffset, r)], phase := Ready)
  }

  function BodyLoaded(t: Tab, m: Message, screen: Screen): Tab {
    var idle := t.(bodyRequest := None);
    if !Usable(t, m.answer) then LoadFailed(idle)
    else EnsureSelectedVisible(ReplaceSegments(idle, m.requestedOffset, m.answer.response), screen)
  }

  /** The page joins the list on its side and its nearest row is selected. */
  function Joined(t: Tab, move: int, s: Segment): Tab
    requires move != 0
  {
    if move > 0 then
      t.(segments := AppendBounded(t.segments, s), phase := Ready,
         selected := if s.sessions == [] then t.selected else Some(Session(s.sessions[0])))
    else
      t.(segments := PrependBounded(t.segments, s), phase := Ready,
         selected := if s.sessions == [] then t.selected else Some(Session(s.sessions[|s.sessions| - 1])))
  }

  /** The old page that stays beside a page that joins. */
  function Beside(segments: seq<Segment>, move: int): seq<string> {
    if segments == [] then [] else if move > 0 then segments[|segments| - 1].sessions else segments[0].sessions
  }

  lemma SessionsOfTwo(a: Segment, b: Segment)
    ensures Sessions([a]) == a.sessions && Sessions([a, b]) == a.sessions + b.sessions
  {
    assert [a][1..] == [] && [a, b][1..] == [b] && [b][1..] == [];
    assert Sessions([b]) == b.sessions + [] == b.sessions;
  }

  lemma JoinedSessions(t: Tab, move: int, s: Segment)
    requires move != 0
    ensures Sessions(Joined(t, move, s).segments) ==
            if move > 0 then Beside(t.segments, move) + s.sessions else s.sessions + Beside(t.segments, move)
  {
    NewPageAndNeighbour(t.segments, s);
    if t.segments == [] {
      SessionsOfTwo(s, s);
      assert [] + s.sessions == s.sessions && s.sessions + [] == s.sessions;
    } else if move > 0 {
      SessionsOfTwo(t.segments[|t.segments| - 1], s);
    } else {
      SessionsOfTwo(s, t.segments[0]);
    }
  }

  lemma RowsOfBoth(a: seq<string>, b: seq<string>)
    ensures AsRows(a + b) == AsRows(a) + AsRows(b)
  {
  }

  lemma Middle(first: seq<Selection>, left: seq<Selection>, right: seq<Selection>)
    ensures var all := first + (left + right);
            && |all| == |first| + |left| + |right|
            && all[..|first| + |left|] == first + left && all[|first| + |left|..] == right
            && (right != [] ==> all[|first| + |left|] == right[0])
            && (left != [] ==> all[|first| + |left| - 1] == left[|left| - 1])
  {
  }

  lemma RowsAfter(q: Tab, stays: seq<string>, joins: seq<string>, row: nat)
    requires Sessions(q.segments) == stays + joins && joins != [] && row == |CreateRows(q)| + |stays|
    ensures row < |Items(q)| && Items(q)[row] == Session(joins[0])
    ensures Items(q)[..row] == CreateRows(q) + AsRows(stays)
  {
    RowsOfBoth(stays, joins);
    var left, right := AsRows(stays), AsRows(joins);
    assert Items(q) == CreateRows(q) + (left + right) && row == |CreateRows(q)| + |left|;
    Middle(CreateRows(q), left, right);
  }

  lemma RowsBefore(q: Tab, stays: seq<string>, joins: seq<string>, row: nat)
    requires Sessions(q.segments) == joins + stays && joins != [] && row == |CreateRows(q)| + |joins| - 1
    ensures row < |Items(q)| && Items(q)[row] == Session(joins[|joins| - 1])
    ensures Items(q)[row + 1..] == AsRows(stays)
  {
    RowsOfBoth(joins, stays);
    var left, right := AsRows(joins), AsRows(stays);
    assert Items(q) == CreateRows(q) + (left + right) && row == |CreateRows(q)| + |left| - 1;
    Middle(CreateRows(q), left, right);
  }

  lemma FoundAtFirst(q: Tab, row: nat)
    requires row < |Items(q)| && q.selected == Some(Items(q)[row])
    ensures SelectedIndex(q) == Some(row) <==> forall j :: 0 <= j < row ==> Items(q)[j] != Items(q)[row]
  {
    FirstIndexIsFirst(Items(q), row);
  }

  /**
   When a page joins, nothing lies between the selected row and the old page that stays: the rows on that side are
   exactly the old page's. Looking the selection up finds that row exactly when no earlier row is the same session.
   */
  lemma JoinSelectsNeighbour(t: Tab, move: int, s: Segment, q: Tab, row: nat)
    requires move != 0 && s.sessions != [] && q == Joined(t, move, s)
    requires row == |CreateRows(q)| + if move > 0 then |Beside(t.segments, move)| else |s.sessions| - 1
    ensures row < |Items(q)| && q.selected == Some(Items(q)[row])
    ensures move > 0 ==> Items(q)[..row] == CreateRows(q) + AsRows(Beside(t.segments, move))
    ensures move < 0 ==> Items(q)[row + 1..] == AsRows(Beside(t.segments, move))
    ensures SelectedIndex(q) == Some(row) <==> forall j :: 0 <= j < row ==> Items(q)[j] != Items(q)[row]
  {
    JoinedSessions(t, move, s);
    if move > 0 {
      RowsAfter(q, Beside(t.segments, move), s.sessions, row);
    } else {
      RowsBefore(q, Beside(t.segments, move), s.sessions, row);
    }
    FoundAtFirst(q, row);
  }

  function JoinedVisibly(t: Tab, move: int, s: Segment, screen: Screen): Tab
    requires move != 0
  {
    EnsureSelectedVisible(Joined(t, move, s), screen)
  }

  function DirectionalLoaded(t: Tab, m: Message, screen: Screen): Tab
    requires m.pageRequest.Some?
  {
    var r := m.pageRequest.value;
    if !Usable(t, m.answer) then LoadFailed(t)
    else
      var done := t.(paging := Complete(t.paging, r));
      if r.move == 0 then LoadFailed(done)
      else JoinedVisibly(done, r.move, SegmentFrom(m.requestedOffset, m.answer.response), screen)
  }

  function PageLoaded(t: Tab, m: Message, screen: Screen): Tab {
    if AnswersBody(t, m) then BodyLoaded(t, m, screen)
    else if AnswersPage(t, m) then DirectionalLoaded(t, m, screen)
    else t
  }

  function Refreshed(t: Tab): Tab {
    if t.refreshPending then StartBody(t, true) else t
  }

  // --- Events ---

  datatype Event =
    | CatalogChanged
    | Arrived(message: Message, screen: Screen)
    | Arrow(delta: int, screen: Screen)
    | PageKey(direction: int, screen: Screen)
    | RetryKey
    | Shown(screen: Screen)
    | Redrawn(screen: Screen)

  function Step(t: Tab, e: Event): Tab {
    match e
    case CatalogChanged => StartBody(t.(refreshPending := true), true)
    case Arrived(m, screen) => Refreshed(PageLoaded(t, m, screen))
    case Arrow(delta, screen) => MoveSelection(t, if delta > 0 then 1 else -1, screen)
    case PageKey(direction, screen) => MoveSelectionPage(t, if direction > 0 then 1 else -1, screen)
    case RetryKey => if t.phase == BodyFailed then StartBody(t, true) else t
    case Shown(screen) =>
      var seen := EnsureSelectedVisible(t, screen);
      if seen.phase == BodyFailed && seen.bodyRequest.None? then StartBody(seen, true) else seen
    case Redrawn(screen) => EnsureSelectedVisible(t, screen)
  }

  function Opened(project: string, category: Category): Tab {
    StartBody(Tab(project, category, [], NO_PAGING, InitialLoading, None, false, FirstSelection(category), 0), false)
  }
}
