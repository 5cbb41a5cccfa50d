/** Whatever is on screen in a settled session tab was asked for after the last catalog change. */
module SessionFreshness {
  import opened Prelude
  import opened PageWindow
  import opened SessionPicker

  /**
   A tab with what an observer remembers: how many catalog changes there were, how many there had been when the latest
   request was sent, and the same for each resident page.
   */
  datatype Watch = Watch(tab: Tab, changes: nat, askedAt: nat, ages: seq<nat>)

  function Outstanding(t: Tab): nat {
    (if t.bodyRequest.Some? then 1 else 0) + (if t.paging.request.Some? then 1 else 0)
    + (if t.paging.nextEdge.request.Some? then 1 else 0) + (if t.paging.previousEdge.request.Some? then 1 else 0)
  }

  /** The ages of the pages after an answer that changed the list as `PageLoaded` does. */
  function AgesAfter(w: Watch, m: Message): seq<nat> {
    var t := w.tab;
    if AnswersBody(t, m) then (if Usable(t, m.answer) && m.answer.response.sessions != [] then [w.askedAt] else [])
    else if AnswersPage(t, m) then
      if !Usable(t, m.answer) || m.pageRequest.value.move == 0 then []
      else JoinedAges(w.ages, m.pageRequest.value.move, w.askedAt)
    else w.ages
  }

  /** The observer's own step: requests are noticed when the generation moves on, a fresh load drops all pages. */
  function Observe(w: Watch, e: Event): Watch {
    var t := Step(w.tab, e);
    var changes := w.changes + (if e.CatalogChanged? then 1 else 0);
    var ages := if e.Arrived? then AgesAfter(w, e.message) else w.ages;
    Watch(t, changes, if t.paging.generation != w.tab.paging.generation then changes else w.askedAt,
          if t.segments == [] then [] else ages)
  }

  function Follow(w: Watch, events: seq<Event>): Watch
    decreases |events|
  {
    if events == [] then w else Follow(Observe(w, events[0]), events[1..])
  }

  predicate AllFrom(ages: seq<nat>, changes: nat) {
    forall i :: 0 <= i < |ages| ==> ages[i] == changes
  }

  predicate MoveAgrees(slot: Option<Request>, d: Direction) {
    slot.Some? ==> slot.value.direction == d && (if d == Next then slot.value.move > 0 else slot.value.move < 0)
  }

  predicate PagesAgree(w: Watch) {
    |w.ages| == |w.tab.segments| <= RESIDENT_PAGE_LIMIT
  }

  predicate PhaseAgrees(t: Tab) {
    match t.phase
    case InitialLoading => t.bodyRequest.Some? && t.segments == []
    case Ready => t.bodyRequest.None? && t.segments != []
    case Empty => Outstanding(t) == 0 && t.segments == []
    case BodyFailed => Outstanding(t) == 0 && t.segments == []
  }

  /** One request at most; a pending refresh waits for it; otherwise everything was asked for after the last change. */
  predicate Coherent(w: Watch) {
    && w.tab.paging.request.None? && Outstanding(w.tab) <= 1
    && MoveAgrees(w.tab.paging.nextEdge.request, Next) && MoveAgrees(w.tab.paging.previousEdge.request, Previous)
    && PagesAgree(w) && PhaseAgrees(w.tab)
    && (if w.tab.refreshPending then Outstanding(w.tab) == 1
        else w.askedAt == w.changes && AllFrom(w.ages, w.changes))
  }

  /** Only the selection and the scroll position differ. */
  predicate SamePages(t: Tab, q: Tab) {
    q == t.(selected := q.selected, offset := q.offset)
  }

  lemma SamePagesIsCoherent(w: Watch, q: Tab)
    requires Coherent(w) && SamePages(w.tab, q)
    ensures Coherent(w.(tab := q))
  {
  }

  /** The watch after a step that sent a request or dropped the pages, and took no answer. */
  function Noticed(w: Watch, q: Tab): Watch {
    Watch(q, w.changes, if q.paging.generation != w.tab.paging.generation then w.changes else w.askedAt,
          if q.segments == [] then [] else w.ages)
  }

  lemma StartBodyIsCoherent(w: Watch)
    requires PagesAgree(w) && !Busy(w.tab)
    ensures Coherent(Noticed(w, StartBody(w.tab, true)))
  {
  }

  lemma DirectionalIsCoherent(w: Watch, requestedOffset: int, move: int)
    requires Coherent(w) && w.tab.phase == Ready && move != 0
    ensures Coherent(Noticed(w, StartDirectional(w.tab, requestedOffset, move)))
  {
  }

  /** A move either only selects and scrolls, or sends a request for the page past that edge. */
  predicate MovesOrAsks(t: Tab, q: Tab, delta: int) {
    SamePages(t, q) ||
    (EdgeTarget(t, delta).Some? && (t.phase == Ready || t.phase == Empty) &&
     q == StartDirectional(t, EdgeTarget(t, delta).value, delta))
  }

  predicate Sensible(t: Tab, m: Move, delta: int) {
    m.Ask? ==> EdgeTarget(t, delta) == Some(m.offset) && (t.phase == Ready || t.phase == Empty)
  }

  lemma MovesAreSensible(t: Tab, delta: int, rows: nat)
    ensures Sensible(t, RowMove(t, delta), delta) && Sensible(t, ScreenMove(t, delta, rows), delta)
  {
  }

  lemma SensibleMoves(t: Tab, m: Move, delta: int, screen: Screen)
    requires Sensible(t, m, delta)
    ensures MovesOrAsks(t, Moved(t, m, delta, screen), delta)
  {
  }

  lemma KeyMoves(t: Tab, delta: int, screen: Screen)
    ensures MovesOrAsks(t, MoveSelection(t, delta, screen), delta)
    ensures MovesOrAsks(t, MoveSelectionPage(t, delta, screen), delta)
  {
    var rows := ScreenRows(t, screen);
    MovesAreSensible(t, delta, rows);
    SensibleMoves(t, RowMove(t, delta), delta, screen);
    SensibleMoves(t, ScreenMove(t, delta, rows), delta, screen);
  }

  lemma MoveIsCoherent(w: Watch, q: Tab, delta: int)
    requires Coherent(w) && delta != 0
    requires MovesOrAsks(w.tab, q, delta)
    ensures Coherent(Noticed(w, q))
  {
    if SamePages(w.tab, q) {
      SamePagesIsCoherent(w, q);
    } else {
      DirectionalIsCoherent(w, EdgeTarget(w.tab, delta).value, delta);
    }
  }

  lemma ChangeIsCoherent(w: Watch)
    requires Coherent(w)
    ensures Coherent(Observe(w, CatalogChanged))
  {
    if !Busy(w.tab) {
      StartBodyIsCoherent(w.(tab := w.tab.(refreshPending := true), changes := w.changes + 1));
    }
  }

  // --- Answers ---

  /** The watch once an answer is taken, before a pending refresh is started. */
  function Taken(w: Watch, m: Message, screen: Screen): Watch {
    var q := PageLoaded(w.tab, m, screen);
    Watch(q, w.changes, w.askedAt, if q.segments == [] then [] else AgesAfter(w, m))
  }

  /** Nothing is outstanding, and all is well but for a refresh that may be due. */
  predicate Settled(w: Watch, due: bool) {
    && Outstanding(w.tab) == 0 && PagesAgree(w) && PhaseAgrees(w.tab)
    && w.tab.refreshPending == due
    && (!due ==> w.askedAt == w.changes && AllFrom(w.ages, w.changes))
  }

  lemma ScrollKeepsPages(t: Tab, screen: Screen)
    ensures SamePages(t, EnsureSelectedVisible(t, screen))
  {
  }

  lemma SettledScroll(w: Watch, q: Tab, due: bool)
    requires Settled(w, due) && SamePages(w.tab, q)
    ensures Settled(w.(tab := q), due)
  {
  }

  lemma BodyAnswerSettles(w: Watch, m: Message, screen: Screen)
    requires Coherent(w) && AnswersBody(w.tab, m)
    ensures Settled(Taken(w, m, screen), w.tab.refreshPending)
    ensures Taken(w, m, screen).tab.paging.generation == w.tab.paging.generation
  {
    var idle := w.tab.(bodyRequest := None);
    if Usable(w.tab, m.answer) {
      var q := ReplaceSegments(idle, m.requestedOffset, m.answer.response);
      ScrollKeepsPages(q, screen);
    }
  }

  function JoinedAges(ages: seq<nat>, move: int, age: nat): (joined: seq<nat>)
    ensures |joined| == if |ages| < RESIDENT_PAGE_LIMIT then |ages| + 1 else RESIDENT_PAGE_LIMIT
    ensures AllFrom(ages, age) ==> AllFrom(joined, age)
  {
    if move > 0 then AppendBounded(ages, age) else PrependBounded(ages, age)
  }

  predicate JoinedShape(t: Tab, q: Tab) {
    && q == t.(segments := q.segments, phase := Ready, selected := q.selected)
    && |q.segments| == if |t.segments| < RESIDENT_PAGE_LIMIT then |t.segments| + 1 else RESIDENT_PAGE_LIMIT
  }

  lemma JoinedHasShape(t: Tab, move: int, s: Segment)
    requires move != 0
    ensures JoinedShape(t, Joined(t, move, s))
  {
  }

  lemma JoinSettles(w: Watch, r: Request, q: Tab)
    requires Coherent(w) && Active(w.tab.paging, r) && r.direction != Initial
    requires JoinedShape(w.tab.(paging := Complete(w.tab.paging, r)), q)
    ensures Settled(w.(tab := q, ages := JoinedAges(w.ages, r.move, w.askedAt)), w.tab.refreshPending)
  {
  }

  lemma PageAnswerSettles(w: Watch, m: Message, screen: Screen)
    requires Coherent(w) && !AnswersBody(w.tab, m) && AnswersPage(w.tab, m)
    ensures m.pageRequest.value.move != 0
    ensures Settled(Taken(w, m, screen), w.tab.refreshPending)
    ensures Taken(w, m, screen).tab.paging.generation == w.tab.paging.generation
  {
    var r := m.pageRequest.value;
    assert r.move != 0 && r.direction != Initial;
    if Usable(w.tab, m.answer) {
      var done := w.tab.(paging := Complete(w.tab.paging, r));
      var q := Joined(done, r.move, SegmentFrom(m.requestedOffset, m.answer.response));
      JoinedHasShape(done, r.move, SegmentFrom(m.requestedOffset, m.answer.response));
      JoinSettles(w, r, q);
      ScrollKeepsPages(q, screen);
      SettledScroll(w.(tab := q, ages := JoinedAges(w.ages, r.move, w.askedAt)), EnsureSelectedVisible(q, screen),
                    w.tab.refreshPending);
    }
  }

  lemma SettledRefreshes(w: Watch, due: bool)
    requires Settled(w, due)
    ensures Coherent(Noticed(w, Refreshed(w.tab)))
  {
    if due {
      StartBodyIsCoherent(w);
    }
  }

  lemma ArrivalIsCoherent(w: Watch, m: Message, screen: Screen)
    requires Coherent(w)
    ensures Coherent(Observe(w, Arrived(m, screen)))
  {
    if AnswersBody(w.tab, m) {
      BodyAnswerSettles(w, m, screen);
      SettledRefreshes(Taken(w, m, screen), w.tab.refreshPending);
      assert Observe(w, Arrived(m, screen)) == Noticed(Taken(w, m, screen), Refreshed(PageLoaded(w.tab, m, screen)));
    } else if AnswersPage(w.tab, m) {
      PageAnswerSettles(w, m, screen);
      SettledRefreshes(Taken(w, m, screen), w.tab.refreshPending);
      assert Observe(w, Arrived(m, screen)) == Noticed(Taken(w, m, screen), Refreshed(PageLoaded(w.tab, m, screen)));
    }
  }

  // --- Every run ---

  lemma RetryIsCoherent(w: Watch)
    requires Coherent(w) && w.tab.phase == BodyFailed
    ensures Coherent(Noticed(w, StartBody(w.tab, true)))
  {
    StartBodyIsCoherent(w);
  }

  lemma KeyIsCoherent(w: Watch, delta: int, screen: Screen)
    requires Coherent(w) && delta != 0
    ensures Coherent(Noticed(w, MoveSelection(w.tab, delta, screen)))
    ensures Coherent(Noticed(w, MoveSelectionPage(w.tab, delta, screen)))
  {
    KeyMoves(w.tab, delta, screen);
    MoveIsCoherent(w, MoveSelection(w.tab, delta, screen), delta);
    MoveIsCoherent(w, MoveSelectionPage(w.tab, delta, screen), delta);
  }

  lemma ScrollIsCoherent(w: Watch, screen: Screen)
    requires Coherent(w)
    ensures Coherent(Observe(w, Redrawn(screen))) && Coherent(Observe(w, Shown(screen)))
  {
    var q := EnsureSelectedVisible(w.tab, screen);
    ScrollKeepsPages(w.tab, screen);
    SamePagesIsCoherent(w, q);
    if w.tab.phase == BodyFailed {
      RetryIsCoherent(w.(tab := q));
    }
  }

  lemma StepIsCoherent(w: Watch, e: Event)
    requires Coherent(w)
    ensures Coherent(Observe(w, e))
  {
    match e
    case CatalogChanged => ChangeIsCoherent(w);
    case Arrived(m, screen) => ArrivalIsCoherent(w, m, screen);
    case Arrow(delta, screen) => KeyIsCoherent(w, if delta > 0 then 1 else -1, screen);
    case PageKey(direction, screen) => KeyIsCoherent(w, if direction > 0 then 1 else -1, screen);
    case RetryKey => if w.tab.phase == BodyFailed { RetryIsCoherent(w); }
    case Shown(screen) => ScrollIsCoherent(w, screen);
    case Redrawn(screen) => ScrollIsCoherent(w, screen);
  }

  lemma {:induction false} RunIsCoherent(w: Watch, events: seq<Event>)
    requires Coherent(w)
    ensures Coherent(Follow(w, events))
    decreases |events|
  {
    if events != [] {
      StepIsCoherent(w, events[0]);
      RunIsCoherent(Observe(w, events[0]), events[1..]);
    }
  }

  /**
   In every run of a tab: it never has two requests outstanding; a refresh is pending only behind an outstanding
   request; and whenever nothing is outstanding, every page on screen was asked for after the last catalog change.
   */
  lemma SettledTabIsFresh(project: string, category: Category, events: seq<Event>)
    ensures var w := Follow(Watch(Opened(project, category), 0, 0, []), events);
            && Outstanding(w.tab) <= 1
            && (w.tab.refreshPending ==> Outstanding(w.tab) == 1)
            && (Outstanding(w.tab) == 0 ==> w.askedAt == w.changes && AllFrom(w.ages, w.changes))
            && |w.ages| == |w.tab.segments| <= 2
  {
    RunIsCoherent(Watch(Opened(project, category), 0, 0, []), events);
  }
}
