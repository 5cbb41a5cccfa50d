/**
 Reading a transcript through the detail window: one page request at a time, made at the window's ends, for the newest
 page, or by rollback navigation for a page anywhere, and the window put back when rollback ends. What is applied when an
 answer comes is decided by the request; the window stays a slice of the transcript in every run.
 */
module DetailReader {
  import opened Prelude
  import opened DetailWindow
  import opened DetailRefinement

  /** A request under way; the answer to an isolated one replaces the window. */
  datatype Pending = Pending(request: PageRequest, isolated: bool)

  /** The window and the request it was last loaded with; none is as good as one for the newest page. */
  datatype View = View(window: Window, last: PageRequest)

  datatype Reader = Reader(view: View, pending: Option<Pending>, saved: Option<View>)

  const BLANK := View(EMPTY, Newest)

  const FRESH := Reader(BLANK, None, None)

  datatype Event =
    | EnterDetail
    | AskOlder
    | AskNewer
    | BeginRollback
    | Locate(cursor: int)
    | SkipTo(request: PageRequest)
    | Answer(page: Page)
    | Fail
    | EndRollback
    | Restart

  // ---- The reducer ----

  /** What a page does to the window: the same page again refreshes the ends, else the request decides. */
  function LoadFor(v: View, request: PageRequest, isolated: bool, page: Page): Load {
    if v.last == request && MatchesPage(v.window, page) then LoadRefresh(page)
    else if isolated then LoadReplace(page)
    else
      match request
      case Newest => LoadReplace(page)
      case Older(_) => LoadOlder(page)
      case Newer(_) => LoadNewer(page)
  }

  function Loaded(v: View, request: PageRequest, isolated: bool, page: Page): View
    requires WellFormed(v.window)
  {
    View(Apply(v.window, LoadFor(v, request, isolated, page)), request)
  }

  /** A request is made only while none is under way. */
  function Asked(r: Reader, request: Option<PageRequest>, isolated: bool): Reader {
    if r.pending.Some? || request.None? then r else r.(pending := Some(Pending(request.value, isolated)))
  }

  function Step(r: Reader, e: Event): Reader
    requires WellFormed(r.view.window)
  {
    match e
    case EnterDetail => r.(pending := Some(Pending(Newest, false)))
    case AskOlder => Asked(r, PageBefore(r.view.window), false)
    case AskNewer => Asked(r, PageAfter(r.view.window), false)
    case BeginRollback => r.(saved := Some(r.view), pending := Some(Pending(Newest, false)))
    case Locate(cursor) => Asked(r, Some(Older(cursor)), true)
    case SkipTo(request) => if r.pending.None? then r else r.(pending := Some(Pending(request, true)))
    case Answer(page) =>
      if r.pending.None? then r
      else r.(view := Loaded(r.view, r.pending.value.request, r.pending.value.isolated, page), pending := None)
    case Fail => r.(pending := None)
    case EndRollback => Reader(if r.saved.Some? then r.saved.value else r.view, None, None)
    case Restart => Reader(BLANK, Some(Pending(Newest, false)), None)
  }

  // ---- What the server answers ----

  /** Every row has a locator of its own. */
  ghost predicate Located(s: Server) {
    forall i, j :: 0 <= i < j < |s.rows| ==> s.rows[i] != s.rows[j]
  }

  /** An answer is a page of the session that ends or begins where the request says. */
  ghost predicate Truthful(s: Server, r: Reader, e: Event) {
    e.Answer? && r.pending.Some? ==> e.page.sessionId == s.session && Answers(s, r.pending.value.request, e.page)
  }

  /** The position the request names. */
  ghost predicate At(s: Server, request: PageRequest, p: nat) {
    match request
    case Newest => p == |s.rows|
    case Older(c) => 0 < p <= |s.rows| && s.older(p) == Some(c)
    case Newer(c) => p < |s.rows| && s.newer(p) == Some(c)
  }

  /** The window shows the transcript between the cuts; if no row is between, the last request names the place. */
  ghost predicate Placed(v: View, s: Server, cuts: seq<nat>) {
    && Refines(v.window, s, cuts) && |v.window.segments| <= RESIDENT_SEGMENTS
    && (v.window.entries == [] ==> At(s, v.last, cuts[0]))
  }

  ghost predicate Shows(v: View, s: Server) {
    if v.window.loaded then exists cuts :: Placed(v, s, cuts) else v.window == EMPTY
  }

  /** The request is for the newest page, or one the window makes itself. */
  predicate Own(w: Window, request: PageRequest) {
    request == Newest || Some(request) == PageBefore(w) || Some(request) == PageAfter(w)
  }

  ghost predicate Consistent(r: Reader, s: Server) {
    && WellFormed(r.view.window)
    && Shows(r.view, s)
    && (r.saved.Some? ==> Shows(r.saved.value, s) && WellFormed(r.saved.value.window))
    && (r.pending.Some? && !r.pending.value.isolated ==> Own(r.view.window, r.pending.value.request))
  }

  // ---- One answer ----

  lemma SameRowsSamePlace(s: Server, lo: nat, hi: nat, a: nat, b: nat)
    requires Located(s) && lo <= hi <= |s.rows| && a <= b <= |s.rows| && s.rows[lo..hi] == s.rows[a..b] && lo < hi
    ensures lo == a && hi == b
  {
    assert s.rows[lo..hi][0] == s.rows[lo] && s.rows[a..b][0] == s.rows[a];
    assert |s.rows[lo..hi]| == hi - lo && |s.rows[a..b]| == b - a;
  }

  lemma AnswerPlace(s: Server, request: PageRequest, page: Page) returns (lo: nat, hi: nat)
    requires Answers(s, request, page)
    ensures lo <= hi <= |s.rows| && page == Slice(s, lo, hi, page.rollback)
    ensures At(s, request, if request.Newer? then lo else hi)
  {
    match request
    case Newest =>
      var l: nat :| l <= |s.rows| && page == Slice(s, l, |s.rows|, page.rollback);
      lo, hi := l, |s.rows|;
    case Older(c) =>
      var l: nat, h: nat :| l <= h <= |s.rows| && 0 < h && s.older(h) == Some(c) && page == Slice(s, l, h, page.rollback);
      lo, hi := l, h;
    case Newer(c) =>
      var l: nat, h: nat :| l <= h <= |s.rows| && l < |s.rows| && s.newer(l) == Some(c) && page == Slice(s, l, h, page.rollback);
      lo, hi := l, h;
  }

  /** The same rows in answer to the same request come from the same place. */
  lemma {:induction false} MatchHasSameEnds(v: View, s: Server, cuts: seq<nat>, page: Page)
    requires Distinguishes(s) && Located(s) && Placed(v, s, cuts)
    requires Answers(s, v.last, page) && v.window.entries == page.entries
    ensures SameEnds(v.window, page)
  {
    var lo, hi := AnswerPlace(s, v.last, page);
    var a, b := cuts[0], cuts[|cuts| - 1];
    if page.entries == [] {
      assert |s.rows[lo..hi]| == 0 && |s.rows[a..b]| == 0;
      assert lo == hi && a == b && At(s, v.last, a) && At(s, v.last, lo);
    } else {
      assert |s.rows[lo..hi]| == hi - lo;
      SameRowsSamePlace(s, lo, hi, a, b);
    }
  }

  lemma AnswerIsSlice(s: Server, request: PageRequest, page: Page)
    requires Answers(s, request, page)
    ensures IsSlice(s, page)
  {
    var lo, hi := AnswerPlace(s, request, page);
  }

  /** The window's own requests: what their answers do is legal, whichever end they are for. */
  lemma OwnIsLegal(w: Window, s: Server, request: PageRequest, page: Page)
    requires WellFormed(w) && Own(w, request) && page.sessionId == s.session && Answers(s, request, page)
    ensures request.Newest? ==> Legal(w, s, LoadReplace(page))
    ensures request.Older? ==> Legal(w, s, LoadOlder(page))
    ensures request.Newer? ==> Legal(w, s, LoadNewer(page))
  {
    if request.Newest? {
      AnswerIsSlice(s, request, page);
    } else if request.Older? {
      assert PageBefore(w) == Some(request);
    } else {
      assert PageAfter(w) == Some(request);
    }
  }

  /** Whatever the reducer makes of a truthful answer, it is a legal load. */
  lemma {:induction false} AnswerIsLegal(v: View, s: Server, cuts: seq<nat>, request: PageRequest, isolated: bool, page: Page)
    requires Distinguishes(s) && Located(s) && WellFormed(v.window) && (v.window.loaded ==> Placed(v, s, cuts))
    requires page.sessionId == s.session && Answers(s, request, page)
    requires isolated || Own(v.window, request)
    ensures Legal(v.window, s, LoadFor(v, request, isolated, page))
  {
    if v.last == request && MatchesPage(v.window, page) {
      MatchHasSameEnds(v, s, cuts, page);
    } else if isolated {
      AnswerIsSlice(s, request, page);
    } else {
      OwnIsLegal(v.window, s, request, page);
    }
  }

  /** The cursor above the first row says where a window begins. */
  lemma BeginIsFixed(w: Window, v: Window, s: Server, a: nat, b: nat)
    requires Distinguishes(s) && a <= |s.rows| && b <= |s.rows|
    requires w.olderCursor == s.older(a) && w.hasMoreAbove == (a > 0)
    requires v.olderCursor == s.older(b) && v.hasMoreAbove == (b > 0)
    requires w.olderCursor == v.olderCursor && w.hasMoreAbove == v.hasMoreAbove
    ensures a == b
  {
  }

  lemma HeldPageHasRows(w: Window, page: Page)
    requires WellFormed(w) && HasSegment(w, page)
    ensures w.entries != []
  {
    var i :| 0 <= i < |w.segments| && Holds(w, i, page);
    assert |page.entries| <= |w.entries|;
  }

  lemma EmptySlice(s: Server, page: Page, lo: nat, hi: nat)
    requires lo <= hi <= |s.rows| && page == Slice(s, lo, hi, page.rollback) && page.entries == []
    ensures lo == hi
  {
    assert |s.rows[lo..hi]| == hi - lo;
  }

  /** An empty page leaves an empty window where it was, which is where the request says. */
  lemma {:induction false} EmptyAfterOlder(w: Window, s: Server, cuts: seq<nat>, page: Page)
    requires Distinguishes(s) && Refines(w, s, cuts) && page.sessionId == s.session
    requires PageBefore(w).Some? && Answers(s, PageBefore(w).value, page)
    requires PrependCursorPage(w, page).window.entries == []
    ensures PrependCursorPage(w, page).window == w.(rollback := page.rollback) && At(s, PageBefore(w).value, cuts[0])
  {
    if page.entries != [] {
      PrependSettles(w, page);
      HeldPageHasRows(PrependCursorPage(w, page).window, page);
      assert false;
    }
    var lo, hi := AnswerPlace(s, PageBefore(w).value, page);
    EmptySlice(s, page, lo, hi);
    EmptyPrependChangesNothing(w.(rollback := page.rollback), s, cuts, page);
  }

  lemma {:induction false} EmptyAfterNewer(w: Window, s: Server, cuts: seq<nat>, page: Page)
    requires Distinguishes(s) && Refines(w, s, cuts) && page.sessionId == s.session
    requires PageAfter(w).Some? && Answers(s, PageAfter(w).value, page)
    requires AppendCursorPage(w, page).window.entries == []
    ensures AppendCursorPage(w, page).window == w.(rollback := page.rollback) && At(s, PageAfter(w).value, cuts[0])
  {
    if page.entries != [] {
      AppendSettles(w, page);
      HeldPageHasRows(AppendCursorPage(w, page).window, page);
      assert false;
    }
    var lo, hi := AnswerPlace(s, PageAfter(w).value, page);
    EmptySlice(s, page, lo, hi);
    EmptyAppendChangesNothing(w.(rollback := page.rollback), s, cuts, page);
    assert |s.rows[cuts[0]..cuts[|cuts| - 1]]| == 0;
  }

  /** Where a window begins, told from the cuts. */
  ghost predicate BeginsAt(w: Window, s: Server, p: nat) {
    p <= |s.rows| && w.olderCursor == s.older(p) && w.hasMoreAbove == (p > 0)
  }

  lemma RefinedBegins(w: Window, s: Server, cuts: seq<nat>)
    requires Refines(w, s, cuts)
    ensures BeginsAt(w, s, cuts[0])
  {
  }

  /** If the window has no rows after the answer, then it begins where the request says. */
  ghost predicate EmptyIsThere(w: Window, s: Server, request: PageRequest) {
    w.entries == [] ==> exists p: nat :: BeginsAt(w, s, p) && At(s, request, p)
  }

  lemma ReplaceIsThere(w: Window, s: Server, request: PageRequest, page: Page)
    requires Answers(s, request, page)
    ensures EmptyIsThere(Replace(w, page), s, request)
  {
    if page.entries == [] {
      var lo, hi := AnswerPlace(s, request, page);
      EmptySlice(s, page, lo, hi);
      assert BeginsAt(Replace(w, page), s, lo) && At(s, request, lo);
    }
  }

  lemma OlderIsThere(w: Window, s: Server, cuts: seq<nat>, page: Page)
    requires Distinguishes(s) && Refines(w, s, cuts) && page.sessionId == s.session
    requires PageBefore(w).Some? && Answers(s, PageBefore(w).value, page)
    ensures EmptyIsThere(PrependCursorPage(w, page).window, s, PageBefore(w).value)
  {
    if PrependCursorPage(w, page).window.entries == [] {
      EmptyAfterOlder(w, s, cuts, page);
      RefinedBegins(w, s, cuts);
      assert BeginsAt(PrependCursorPage(w, page).window, s, cuts[0]);
    }
  }

  lemma NewerIsThere(w: Window, s: Server, cuts: seq<nat>, page: Page)
    requires Distinguishes(s) && Refines(w, s, cuts) && page.sessionId == s.session
    requires PageAfter(w).Some? && Answers(s, PageAfter(w).value, page)
    ensures EmptyIsThere(AppendCursorPage(w, page).window, s, PageAfter(w).value)
  {
    if AppendCursorPage(w, page).window.entries == [] {
      EmptyAfterNewer(w, s, cuts, page);
      RefinedBegins(w, s, cuts);
      assert BeginsAt(AppendCursorPage(w, page).window, s, cuts[0]);
    }
  }

  lemma RefreshIsThere(v: View, s: Server, cuts: seq<nat>, page: Page)
    requires Placed(v, s, cuts) && SameEnds(v.window, page)
    ensures EmptyIsThere(RefreshEdgeCursors(v.window, page), s, v.last)
  {
    RefreshChangesExactly(v.window, s, cuts, page);
    RefinedBegins(v.window, s, cuts);
    if v.window.entries == [] {
      assert BeginsAt(RefreshEdgeCursors(v.window, page), s, cuts[0]) && At(s, v.last, cuts[0]);
    }
  }

  lemma OwnIsThere(w: Window, s: Server, cuts: seq<nat>, request: PageRequest, page: Page)
    requires Distinguishes(s) && WellFormed(w) && (w.loaded ==> Refines(w, s, cuts)) && page.sessionId == s.session
    requires Answers(s, request, page) && Own(w, request) && !request.Newest?
    ensures request.Older? ==> EmptyIsThere(PrependCursorPage(w, page).window, s, request)
    ensures request.Newer? ==> EmptyIsThere(AppendCursorPage(w, page).window, s, request)
  {
    if request.Older? {
      assert PageBefore(w) == Some(request);
      OlderIsThere(w, s, cuts, page);
    } else {
      assert PageAfter(w) == Some(request);
      NewerIsThere(w, s, cuts, page);
    }
  }

  lemma {:induction false} RefreshAnswerIsThere(v: View, s: Server, cuts: seq<nat>, isolated: bool, page: Page)
    requires Distinguishes(s) && Located(s) && WellFormed(v.window) && Placed(v, s, cuts)
    requires Answers(s, v.last, page) && MatchesPage(v.window, page)
    ensures EmptyIsThere(Apply(v.window, LoadFor(v, v.last, isolated, page)), s, v.last)
  {
    MatchHasSameEnds(v, s, cuts, page);
    RefreshIsThere(v, s, cuts, page);
  }

  lemma {:induction false} OtherAnswerIsThere(v: View, s: Server, cuts: seq<nat>, request: PageRequest, isolated: bool, page: Page)
    requires Distinguishes(s) && WellFormed(v.window) && (v.window.loaded ==> Refines(v.window, s, cuts))
    requires page.sessionId == s.session && Answers(s, request, page) && (isolated || Own(v.window, request))
    requires !LoadFor(v, request, isolated, page).LoadRefresh?
    ensures EmptyIsThere(Apply(v.window, LoadFor(v, request, isolated, page)), s, request)
  {
    if isolated || request.Newest? {
      ReplaceIsThere(v.window, s, request, page);
    } else {
      OwnIsThere(v.window, s, cuts, request, page);
    }
  }

  lemma ThereIsPlaced(v: View, s: Server, shown: seq<nat>)
    requires Distinguishes(s) && Refines(v.window, s, shown) && |v.window.segments| <= RESIDENT_SEGMENTS
    requires EmptyIsThere(v.window, s, v.last)
    ensures Placed(v, s, shown)
  {
    if v.window.entries == [] {
      var p: nat :| BeginsAt(v.window, s, p) && At(s, v.last, p);
      RefinedBegins(v.window, s, shown);
      BeginIsFixed(v.window, v.window, s, p, shown[0]);
    }
  }

  lemma {:induction false} AnswerIsPlaced(v: View, s: Server, cuts: seq<nat>, request: PageRequest, isolated: bool,
                                          page: Page) returns (shown: seq<nat>)
    requires Distinguishes(s) && Located(s) && WellFormed(v.window) && |v.window.segments| <= RESIDENT_SEGMENTS
    requires v.window.loaded ==> Placed(v, s, cuts)
    requires page.sessionId == s.session && Answers(s, request, page)
    requires isolated || Own(v.window, request)
    ensures Placed(Loaded(v, request, isolated, page), s, shown)
  {
    var load := LoadFor(v, request, isolated, page);
    AnswerIsLegal(v, s, cuts, request, isolated, page);
    shown := LoadRefines(v.window, s, cuts, load);
    LoadStaysBounded(v.window, load);
    if load.LoadRefresh? {
      RefreshAnswerIsThere(v, s, cuts, isolated, page);
    } else {
      OtherAnswerIsThere(v, s, cuts, request, isolated, page);
    }
    ThereIsPlaced(Loaded(v, request, isolated, page), s, shown);
  }

  // ---- Whole runs ----

  lemma {:induction false} AnswerIsConsistent(r: Reader, s: Server, page: Page)
    requires Distinguishes(s) && Located(s) && Consistent(r, s) && Truthful(s, r, Answer(page)) && r.pending.Some?
    ensures Consistent(Step(r, Answer(page)), s)
  {
    var cuts: seq<nat> := [];
    if r.view.window.loaded {
      cuts :| Placed(r.view, s, cuts);
    }
    var shown := AnswerIsPlaced(r.view, s, cuts, r.pending.value.request, r.pending.value.isolated, page);
  }

  lemma StepIsConsistent(r: Reader, s: Server, e: Event)
    requires Distinguishes(s) && Located(s) && Consistent(r, s) && Truthful(s, r, e)
    ensures Consistent(Step(r, e), s)
  {
    if e.Answer? && r.pending.Some? {
      AnswerIsConsistent(r, s, e.page);
    }
  }

  /** The run, as far as every answer in it is truthful. */
  ghost predicate TruthfulRun(s: Server, r: Reader, events: seq<Event>)
    requires WellFormed(r.view.window) && (r.saved.Some? ==> WellFormed(r.saved.value.window))
    decreases |events|
  {
    events != [] ==> Truthful(s, r, events[0]) && TruthfulRun(s, Step(r, events[0]), events[1..])
  }

  function Follow(r: Reader, events: seq<Event>): (after: Reader)
    requires WellFormed(r.view.window) && (r.saved.Some? ==> WellFormed(r.saved.value.window))
    ensures WellFormed(after.view.window)
    decreases |events|
  {
    if events == [] then r else Follow(Step(r, events[0]), events[1..])
  }

  lemma {:induction false} RunIsConsistent(r: Reader, s: Server, events: seq<Event>)
    requires Distinguishes(s) && Located(s) && Consistent(r, s) && TruthfulRun(s, r, events)
    ensures Consistent(Follow(r, events), s)
    decreases |events|
  {
    if events != [] {
      StepIsConsistent(r, s, events[0]);
      RunIsConsistent(Step(r, events[0]), s, events[1..]);
    }
  }

  /**
   In every run of requests, answers, failures, rollback navigation and its undoing, over one transcript: once anything
   is loaded, the window is a slice of the transcript in at most two pages, with the cursors and flags of its ends, so
   that it asks for more at an end exactly when the transcript goes on there.
   */
  lemma {:induction false} EveryRunShowsTheTranscript(s: Server, events: seq<Event>) returns (cuts: seq<nat>)
    requires Distinguishes(s) && Located(s) && TruthfulRun(s, FRESH, events)
    ensures var w := Follow(FRESH, events).view.window;
            w.loaded ==>
              && Refines(w, s, cuts) && |w.segments| <= RESIDENT_SEGMENTS
              && (PageBefore(w).Some? <==> cuts[0] > 0)
              && (PageAfter(w).Some? <==> cuts[|cuts| - 1] < |s.rows|)
  {
    RunIsConsistent(FRESH, s, events);
    var v := Follow(FRESH, events).view;
    cuts := [];
    if v.window.loaded {
      cuts :| Placed(v, s, cuts);
    }
  }

  // ---- What is asked for, shown and restored ----

  /** Asking for more names the end of the window it is for, exactly when the transcript goes on there. */
  lemma AskingNamesTheEnd(r: Reader, s: Server, cuts: seq<nat>)
    requires Distinguishes(s) && WellFormed(r.view.window) && Refines(r.view.window, s, cuts) && r.pending.None?
    ensures var p := Step(r, AskOlder).pending;
            if cuts[0] == 0 then p.None?
            else p.Some? && !p.value.isolated && p.value.request.Older? && At(s, p.value.request, cuts[0])
    ensures var p := Step(r, AskNewer).pending;
            var end := cuts[|cuts| - 1];
            if end == |s.rows| then p.None?
            else p.Some? && !p.value.isolated && p.value.request.Newer? && At(s, p.value.request, end)
  {
  }

  /** A page with rows that answers a request is in the window afterwards, or is all of it. */
  lemma AnswerIsHeld(r: Reader, page: Page)
    requires WellFormed(r.view.window) && r.pending.Some? && page.entries != []
    ensures var v := Step(r, Answer(page)).view;
            && v.last == r.pending.value.request
            && (v.window.entries == page.entries || HasSegment(v.window, page))
            && (r.pending.value.isolated || r.pending.value.request.Newest? ==> v.window.entries == page.entries)
  {
    var w := r.view.window;
    match LoadFor(r.view, r.pending.value.request, r.pending.value.isolated, page)
    case LoadOlder(_) => PrependSettles(w, page);
    case LoadNewer(_) => AppendSettles(w, page);
    case LoadReplace(_) =>
    case LoadRefresh(_) => RefreshKeepsRows(w, page);
  }

  /** While a request is under way, asking for more, or for a page to go back to, changes nothing. */
  lemma OneRequestAtATime(r: Reader, e: Event)
    requires WellFormed(r.view.window) && r.pending.Some? && (e.AskOlder? || e.AskNewer? || e.Locate?)
    ensures Step(r, e) == r
  {
  }

  /** Entering the detail view, and beginning a rollback, ask for the newest page whatever was under way. */
  lemma EnteringAsksForTheNewest(r: Reader)
    requires WellFormed(r.view.window)
    ensures Step(r, EnterDetail) == r.(pending := Some(Pending(Newest, false)))
    ensures Step(r, BeginRollback) == Reader(r.view, Some(Pending(Newest, false)), Some(r.view))
    ensures Step(r, Restart) == Reader(View(EMPTY, Newest), Some(Pending(Newest, false)), None)
  {
  }

  /** A page located for rollback is asked for by its end, and its answer takes the place of the window. */
  lemma LocatedPageReplaces(r: Reader, cursor: int, page: Page)
    requires WellFormed(r.view.window) && r.pending.None? && page.entries != r.view.window.entries
    ensures Step(r, Locate(cursor)).pending == Some(Pending(Older(cursor), true))
    ensures var v := Step(Step(r, Locate(cursor)), Answer(page)).view;
            v.last == Older(cursor) && v.window == Replace(r.view.window, page)
  {
  }

  /** Skipping a page goes on to the next request, whose answer takes the place of the window; nothing is shown of the page. */
  lemma SkippedPageIsNotShown(r: Reader, next: PageRequest, page: Page)
    requires WellFormed(r.view.window) && r.pending.Some? && page.entries != r.view.window.entries
    ensures Step(r, SkipTo(next)) == r.(pending := Some(Pending(next, true)))
    ensures var v := Step(Step(r, SkipTo(next)), Answer(page)).view;
            v.last == next && v.window == Replace(r.view.window, page)
  {
  }

  /** A failure, and an answer, end the request; without a request neither does anything. */
  lemma AnswersEndRequests(r: Reader, page: Page)
    requires WellFormed(r.view.window)
    ensures Step(r, Answer(page)).pending.None? && Step(r, Fail) == r.(pending := None)
    ensures r.pending.None? ==> Step(r, Answer(page)) == r && forall next :: Step(r, SkipTo(next)) == r
    ensures r.saved.None? ==> Step(r, EndRollback) == r.(pending := None)
  {
  }

  predicate LeavesRollback(e: Event) {
    e.BeginRollback? || e.EndRollback? || e.Restart?
  }

  lemma {:induction false} SavedStays(r: Reader, events: seq<Event>)
    requires WellFormed(r.view.window) && (r.saved.Some? ==> WellFormed(r.saved.value.window))
    requires forall i :: 0 <= i < |events| ==> !LeavesRollback(events[i])
    ensures Follow(r, events).saved == r.saved
    decreases |events|
  {
    if events != [] {
      SavedStays(Step(r, events[0]), events[1..]);
    }
  }

  /** However far rollback navigation went, ending it shows what was shown before, with nothing under way. */
  lemma RollbackIsUndone(r: Reader, events: seq<Event>)
    requires WellFormed(r.view.window) && forall i :: 0 <= i < |events| ==> !LeavesRollback(events[i])
    ensures var during := Follow(Step(r, BeginRollback), events);
            Step(during, EndRollback) == Reader(r.view, None, None)
  {
    SavedStays(Step(r, BeginRollback), events);
  }

  // ---- The reducer on the mutable window ----

  method ApplyDetailLoad(window: TranscriptWindow, last: PageRequest, request: PageRequest, isolated: bool, page: Page)
    returns (next: PageRequest)
    requires window.Valid()
    modifies window
    ensures View(window.State(), next) == Loaded(View(old(window.State()), last), request, isolated, page)
  {
    var matches := false;
    if last == request {
      matches := window.Matches(page);
    }
    if matches {
      window.RefreshFrom(page);
      return last;
    }
    if isolated || request == Newest {
      window.ReplacePage(page);
    } else if request.Newer? {
      var added, front := window.Append(page);
    } else {
      var added, front := window.Prepend(page);
    }
    next := request;
  }
}
