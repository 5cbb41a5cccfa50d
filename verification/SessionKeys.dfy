/** What the keys of a session tab select, and what they ask for past the end of the resident rows. */
module SessionKeys {
  import opened Prelude
  import opened PageWindow
  import opened SessionPicker
  import Viewport = PickerViewport

  /** The tab has the row selected and is scrolled to just where it can be seen. */
  ghost predicate Selects(t: Tab, q: Tab, screen: Screen, row: int) {
    && 0 <= row < |Items(t)|
    && q == t.(selected := q.selected, offset := q.offset)
    && q.selected == Some(Items(t)[row])
    && (var found := FirstIndex(Items(t), Items(t)[row]);
        found.Some? && Viewport.LeastOffset(Viewport.Listing(|Items(t)|, screen.hasPreview, screen.budget), found.value, q.offset))
  }

  /** A directional request for the page is begun, and nothing else is changed. */
  predicate Asks(t: Tab, q: Tab, delta: int, offset: int) {
    var d := if delta < 0 then Previous else Next;
    && q == t.(paging := q.paging) && RequestFor(q.paging, d).Some?
    && var r := RequestFor(q.paging, d).value; r.offset == offset && r.move == delta && r.direction == d
  }

  /** There are rows, loaded and current. */
  predicate Usable(t: Tab) {
    t.phase == Ready || t.phase == Empty
  }

  /** Where the next page on a side starts, if there is one. */
  function PageBeyond(t: Tab, delta: int): Option<int> {
    if t.segments == [] then None
    else if delta > 0 then t.segments[|t.segments| - 1].nextOffset
    else if t.segments[0].requestedOffset == 0 then None
    else if t.segments[0].requestedOffset < PAGE_SIZE then Some(0)
    else Some(t.segments[0].requestedOffset - PAGE_SIZE)
  }

  lemma SelectingSelects(t: Tab, row: int, screen: Screen)
    requires 0 <= row < |Items(t)|
    ensures Selects(t, SelectVisibly(t, row, screen), screen, row)
  {
    FirstIndexIsFirst(Items(t), row);
    assert Items(SelectIndex(t, row)) == Items(t);
  }

  /** What a key does: nothing, a row selected, or a page asked for. */
  datatype Effect = Nothing | RowSelected(row: int) | PageAsked(offset: int)

  ghost predicate Does(t: Tab, q: Tab, delta: int, screen: Screen, e: Effect) {
    match e
    case Nothing => q == t
    case RowSelected(row) => Selects(t, q, screen, row)
    case PageAsked(offset) => Asks(t, q, delta, offset)
  }

  /** At the end of the rows: the page beyond, if there is one and nothing is under way. */
  function AtEnd(t: Tab, delta: int): Effect {
    if Busy(t) || PageBeyond(t, delta).None? then Nothing else PageAsked(PageBeyond(t, delta).value)
  }

  function ArrowEffect(t: Tab, delta: int, count: nat, selected: Option<nat>): Effect {
    if selected.None? then (if count == 0 then Nothing else RowSelected(0))
    else if 0 <= selected.value + delta < count then RowSelected(selected.value + delta)
    else AtEnd(t, delta)
  }

  /** How many rows are on screen, counted as one at least. */
  function Screenful(t: Tab, screen: Screen): nat {
    var rows := |Viewport.VisibleRows(Viewport.Listing(|Items(t)|, screen.hasPreview, screen.budget), t.offset)|;
    if rows == 0 then 1 else rows
  }

  /** A screenful on; at the end of all there is, the last row that way. */
  function PageKeyEffect(t: Tab, delta: int, rows: nat, count: nat, selected: Option<nat>): Effect {
    var last := if delta > 0 then count - 1 else 0;
    if count == 0 then Nothing
    else if selected.None? then RowSelected(if delta > 0 then 0 else count - 1)
    else
      var row := if delta > 0 then selected.value + rows else selected.value - rows;
      if 0 <= row < count then RowSelected(row)
      else if PageBeyond(t, delta).None? && !EdgeBusy(t, delta) then RowSelected(last)
      else AtEnd(t, delta)
  }

  function EffectOf(t: Tab, m: Move): Effect {
    match m
    case Stay => Nothing
    case Select(index) => RowSelected(index)
    case Ask(offset) => if Busy(t) then Nothing else PageAsked(offset)
  }

  lemma DecidedMoves(t: Tab, m: Move, delta: int, screen: Screen)
    requires delta in {-1, 1} && (m.Select? ==> 0 <= m.index < |Items(t)|)
    ensures Does(t, Moved(t, m, delta, screen), delta, screen, EffectOf(t, m))
  {
    if m.Select? {
      SelectingSelects(t, m.index, screen);
    }
  }

  lemma BeyondIs(t: Tab, delta: int)
    requires delta in {-1, 1}
    ensures EffectOf(t, Beyond(t, delta)) == AtEnd(t, delta) && !Beyond(t, delta).Select?
  {
  }

  lemma RowDecision(t: Tab, delta: int)
    requires delta in {-1, 1} && Usable(t)
    ensures EffectOf(t, RowMove(t, delta)) == ArrowEffect(t, delta, |Items(t)|, SelectedIndex(t))
    ensures RowMove(t, delta).Select? ==> 0 <= RowMove(t, delta).index < |Items(t)|
  {
    BeyondIs(t, delta);
  }

  lemma NothingToSelect(t: Tab)
    requires Items(t) == []
    ensures SelectedIndex(t).None?
  {
  }

  lemma ScreenDecision(t: Tab, delta: int, rows: nat)
    requires delta in {-1, 1} && Usable(t)
    ensures EffectOf(t, ScreenMove(t, delta, rows)) == PageKeyEffect(t, delta, rows, |Items(t)|, SelectedIndex(t))
    ensures ScreenMove(t, delta, rows).Select? ==> 0 <= ScreenMove(t, delta, rows).index < |Items(t)|
  {
    BeyondIs(t, delta);
    if Items(t) == [] {
      NothingToSelect(t);
    }
  }

  /**
   An arrow key on loaded rows selects the next row its way; at the end it asks for the page beyond, if there is one and
   nothing is under way; with nothing selected it selects the first row.
   */
  lemma ArrowsMoveByOne(t: Tab, delta: int, screen: Screen)
    requires delta in {-1, 1} && Usable(t)
    ensures Does(t, Step(t, Arrow(delta, screen)), delta, screen, ArrowEffect(t, delta, |Items(t)|, SelectedIndex(t)))
  {
    RowDecision(t, delta);
    DecidedMoves(t, RowMove(t, delta), delta, screen);
  }

  /**
   A page key selects the row a screenful away. Past the end it asks for the page beyond, if there is one, and otherwise
   settles for the last row that way; with nothing selected it selects the first or the last row.
   */
  lemma PageKeysMoveByScreen(t: Tab, delta: int, screen: Screen)
    requires delta in {-1, 1} && Usable(t)
    ensures Does(t, Step(t, PageKey(delta, screen)), delta, screen,
                 PageKeyEffect(t, delta, Screenful(t, screen), |Items(t)|, SelectedIndex(t)))
  {
    ScreenDecision(t, delta, Screenful(t, screen));
    DecidedMoves(t, ScreenMove(t, delta, Screenful(t, screen)), delta, screen);
  }

  /** Keys do nothing while a tab has no rows to move over: loading, or after a failure. */
  lemma KeysWaitForRows(t: Tab, delta: int, screen: Screen)
    requires !Usable(t)
    ensures Step(t, Arrow(delta, screen)) == t && Step(t, PageKey(delta, screen)) == t
  {
  }

  // --- What is offered and shown ---

  /** The row to create a session is the first one, in the main tab, exactly while the newest sessions are resident. */
  lemma CreateRowIsFirst(t: Tab)
    ensures Create in Items(t) <==> t.category == Main && (t.segments == [] || t.segments[0].requestedOffset == 0)
    ensures Create in Items(t) ==> Items(t)[0] == Create && Create !in Items(t)[1..]
    ensures |Items(t)| == |Sessions(t.segments)| + if Create in Items(t) then 1 else 0
  {
    assert Items(t) == CreateRows(t) + AsRows(Sessions(t.segments));
    assert Create !in AsRows(Sessions(t.segments));
    if CreateRows(t) != [] {
      assert Items(t)[1..] == AsRows(Sessions(t.segments));
    }
  }

  /** Scrolled to just where the selected row can be seen, or to the top if no row is selected. */
  ghost predicate Scrolled(t: Tab, screen: Screen) {
    if SelectedIndex(t).None? then t.offset == 0
    else
      Viewport.LeastOffset(Viewport.Listing(|Items(t)|, screen.hasPreview, screen.budget), SelectedIndex(t).value, t.offset)
  }

  lemma ScrollingScrolls(t: Tab, screen: Screen)
    ensures var q := EnsureSelectedVisible(t, screen); q == t.(offset := q.offset) && Scrolled(q, screen)
  {
    assert Items(EnsureSelectedVisible(t, screen)) == Items(t);
  }

  /** Redrawing scrolls to the selected row, and does nothing else. */
  lemma RedrawingScrolls(t: Tab, screen: Screen)
    ensures var q := Step(t, Redrawn(screen)); q == t.(offset := q.offset) && Scrolled(q, screen)
  {
    ScrollingScrolls(t, screen);
  }

  /** A fresh load of the tab: no rows, the first selection, one request for the first page with a new number. */
  predicate LoadsAfresh(t: Tab, q: Tab) {
    && q.phase == InitialLoading && q.segments == [] && q.offset == 0 && !q.refreshPending
    && q.selected == (if t.category == Main then Some(Create) else None)
    && q.bodyRequest == Some(BodyRequest(true, t.paging.generation + 1, 0)) && !HasPending(q.paging)
    && q.project == t.project && q.category == t.category
  }

  /** Showing a tab that has failed loads it afresh; showing any other scrolls it. */
  lemma ShowingRetries(t: Tab, screen: Screen)
    ensures var q := Step(t, Shown(screen));
            if t.phase == BodyFailed && !Busy(t) then LoadsAfresh(t, q)
            else q == t.(offset := q.offset) && Scrolled(q, screen)
  {
    ScrollingScrolls(t, screen);
    StartingLoads(EnsureSelectedVisible(t, screen));
  }

  lemma StartingLoads(t: Tab)
    ensures if Busy(t) then StartBody(t, true) == t else LoadsAfresh(t, StartBody(t, true))
  {
  }

  /** After a failure Retry loads the tab afresh, unless something is under way; at any other time it does nothing. */
  lemma RetryReloads(t: Tab)
    ensures var q := Step(t, RetryKey);
            if t.phase == BodyFailed && !Busy(t) then LoadsAfresh(t, q) else q == t
  {
  }

  /** A change of the catalog loads the tab afresh at once, or is kept in mind while something is under way. */
  lemma ChangeReloads(t: Tab)
    ensures var q := Step(t, CatalogChanged);
            if Busy(t) then q == t.(refreshPending := true) else LoadsAfresh(t, q)
  {
  }

  /** A tab opens with its first page asked for. */
  lemma OpeningAsks(project: string, category: Category)
    ensures var t := Opened(project, category);
            && t.project == project && t.category == category && t.phase == InitialLoading && t.segments == []
            && t.selected == (if category == Main then Some(Create) else None)
            && t.bodyRequest.Some? && t.bodyRequest.value.requestedOffset == 0 && !HasPending(t.paging)
  {
  }

  // --- What answers leave ---

  /** The page is for this project and kind of session, and no longer than was asked for. */
  predicate Fits(t: Tab, a: Answer) {
    && a.Loaded? && a.response.projectId == t.project && a.response.category == t.category
    && |a.response.sessions| <= PAGE_SIZE
  }

  /** The answer is to the one request that is out. */
  predicate Expected(t: Tab, m: Message) {
    || (t.bodyRequest.Some? && m.generation == t.bodyRequest.value.generation && m.requestedOffset == t.bodyRequest.value.requestedOffset)
    || (m.pageRequest.Some? && RequestFor(t.paging, m.pageRequest.value.direction) == m.pageRequest)
  }

  /** Any other answer is ignored. */
  lemma StrayAnswersAreIgnored(t: Tab, m: Message, screen: Screen)
    requires !Expected(t, m)
    ensures PageLoaded(t, m, screen) == t
  {
  }

  /** A first page is shown from its first row on; an empty one shows an empty tab. */
  lemma FirstPageIsShown(t: Tab, m: Message, screen: Screen)
    requires AnswersBody(t, m) && Fits(t, m.answer)
    ensures var q := PageLoaded(t, m, screen);
            && q.bodyRequest.None? && q.paging == t.paging && q.refreshPending == t.refreshPending && Scrolled(q, screen)
            && (if m.answer.response.sessions == [] then
                  q.phase == Empty && q.segments == [] && q.selected == (if t.category == Main then Some(Create) else None)
                else
                  q.phase == Ready && Sessions(q.segments) == m.answer.response.sessions && q.selected == t.selected
                  && |q.segments| == 1 && q.segments[0].requestedOffset == m.requestedOffset
                  && q.segments[0].nextOffset == m.answer.response.nextOffset)
  {
    var s := SegmentFrom(m.requestedOffset, m.answer.response);
    SessionsOfTwo(s, s);
    ScrollingScrolls(ReplaceSegments(t.(bodyRequest := None), m.requestedOffset, m.answer.response), screen);
  }

  /** A page past an end joins the rows and shows the row it selects. */
  lemma NextPageIsShown(t: Tab, m: Message, screen: Screen)
    requires !AnswersBody(t, m) && AnswersPage(t, m) && Fits(t, m.answer) && m.pageRequest.value.move != 0
    ensures var q := PageLoaded(t, m, screen);
            var joined := Joined(t, m.pageRequest.value.move, SegmentFrom(m.requestedOffset, m.answer.response));
            && q.phase == Ready && q.segments == joined.segments && q.selected == joined.selected && Scrolled(q, screen)
            && RequestFor(q.paging, m.pageRequest.value.direction).None?
  {
    var r := m.pageRequest.value;
    var done := t.(paging := Complete(t.paging, r));
    ScrollingScrolls(Joined(done, r.move, SegmentFrom(m.requestedOffset, m.answer.response)), screen);
  }

  /** An answer that does not fit empties the tab and shows the failure. */
  lemma FailureIsShown(t: Tab, m: Message, screen: Screen)
    requires AnswersBody(t, m) || AnswersPage(t, m)
    requires !Fits(t, m.answer)
    ensures var q := PageLoaded(t, m, screen);
            && q.phase == BodyFailed && q.segments == [] && !HasPending(q.paging) && q.offset == 0
            && q.selected == (if t.category == Main then Some(Create) else None)
  {
  }

  /** A refresh that was kept in mind is made as soon as the answer that was under way is dealt with. */
  lemma WaitingRefreshFollows(t: Tab, m: Message, screen: Screen)
    requires t.refreshPending && !Busy(PageLoaded(t, m, screen)) && PageLoaded(t, m, screen).refreshPending
    ensures LoadsAfresh(PageLoaded(t, m, screen), Step(t, Arrived(m, screen)))
  {
  }
}
