/** How the two resident pages of a session tab lie in the list of sessions. */
module SessionPages {
  import opened Prelude
  import opened PageWindow
  import opened SessionPicker
  import opened SessionFreshness

  // --- Whatever the server answers ---

  /** The second page is where the first says its successor is, or the first was asked for as the one before it. */
  predicate Adjoin(first: Segment, second: Segment) {
    first.nextOffset == Some(second.requestedOffset) || first.requestedOffset == PreviousOffset([second])
  }

  /** Pages that adjoin, and the outstanding request, if any, is for a page at their ends. */
  predicate Linked(t: Tab) {
    && |t.segments| <= RESIDENT_PAGE_LIMIT
    && (|t.segments| == 2 ==> Adjoin(t.segments[0], t.segments[1]))
    && (t.paging.nextEdge.request.Some? ==> EdgeTarget(t, 1) == Some(t.paging.nextEdge.request.value.offset))
    && (t.paging.previousEdge.request.Some? ==> EdgeTarget(t, -1) == Some(t.paging.previousEdge.request.value.offset))
  }

  /** An answer comes with the offset it was asked for. */
  predicate Carried(e: Event) {
    e.Arrived? && e.message.pageRequest.Some? ==> e.message.requestedOffset == e.message.pageRequest.value.offset
  }

  lemma StartBodyLinks(t: Tab, retry: bool)
    requires Linked(t)
    ensures Linked(StartBody(t, retry))
  {
  }

  lemma DirectionalLinks(t: Tab, delta: int)
    requires Linked(t) && delta in {-1, 1} && EdgeTarget(t, delta).Some?
    ensures Linked(StartDirectional(t, EdgeTarget(t, delta).value, delta))
  {
  }

  lemma ScrollLinks(t: Tab, q: Tab)
    requires Linked(t) && SamePages(t, q)
    ensures Linked(q)
  {
  }

  lemma JoinLinks(t: Tab, move: int, s: Segment)
    requires Outstanding(t) == 0 && move != 0 && t.segments != []
    requires EdgeTarget(t, if move > 0 then 1 else -1) == Some(s.requestedOffset)
    ensures Linked(Joined(t, move, s))
  {
    NewPageAndNeighbour(t.segments, s);
  }

  lemma PageAnswerLinks(w: Watch, m: Message, screen: Screen)
    requires Coherent(w) && Linked(w.tab) && !AnswersBody(w.tab, m) && AnswersPage(w.tab, m)
    requires Carried(Arrived(m, screen))
    ensures Linked(PageLoaded(w.tab, m, screen))
  {
    var r := m.pageRequest.value;
    assert r.move != 0 && r.direction != Initial;
    if Usable(w.tab, m.answer) {
      var done := w.tab.(paging := Complete(w.tab.paging, r));
      var s := SegmentFrom(m.requestedOffset, m.answer.response);
      var delta := if r.move > 0 then 1 else -1;
      assert EdgeTarget(w.tab, delta) == Some(r.offset) == EdgeTarget(done, delta);
      JoinLinks(done, r.move, s);
      ScrollKeepsPages(Joined(done, r.move, s), screen);
      ScrollLinks(Joined(done, r.move, s), EnsureSelectedVisible(Joined(done, r.move, s), screen));
    }
  }

  lemma BodyAnswerLinks(w: Watch, m: Message, screen: Screen)
    requires Coherent(w) && Linked(w.tab) && AnswersBody(w.tab, m)
    ensures Linked(PageLoaded(w.tab, m, screen))
  {
    if Usable(w.tab, m.answer) {
      var q := ReplaceSegments(w.tab.(bodyRequest := None), m.requestedOffset, m.answer.response);
      assert Linked(q);
      ScrollKeepsPages(q, screen);
      ScrollLinks(q, EnsureSelectedVisible(q, screen));
    }
  }

  lemma MoveLinks(t: Tab, q: Tab, delta: int)
    requires Linked(t) && delta in {-1, 1}
    requires MovesOrAsks(t, q, delta)
    ensures Linked(q)
  {
    if SamePages(t, q) {
      ScrollLinks(t, q);
    } else {
      DirectionalLinks(t, delta);
    }
  }

  lemma StepLinks(w: Watch, e: Event)
    requires Coherent(w) && Linked(w.tab) && Carried(e)
    ensures Linked(Step(w.tab, e))
  {
    match e
    case CatalogChanged => StartBodyLinks(w.tab.(refreshPending := true), true);
    case Arrived(m, screen) =>
      if AnswersBody(w.tab, m) {
        BodyAnswerLinks(w, m, screen);
      } else if AnswersPage(w.tab, m) {
        PageAnswerLinks(w, m, screen);
      }
      StartBodyLinks(PageLoaded(w.tab, m, screen), true);
    case Arrow(delta, screen) =>
      var d := if delta > 0 then 1 else -1;
      KeyMoves(w.tab, d, screen);
      MoveLinks(w.tab, MoveSelection(w.tab, d, screen), d);
    case PageKey(direction, screen) =>
      var d := if direction > 0 then 1 else -1;
      KeyMoves(w.tab, d, screen);
      MoveLinks(w.tab, MoveSelectionPage(w.tab, d, screen), d);
    case RetryKey => StartBodyLinks(w.tab, true);
    case Shown(screen) =>
      ScrollKeepsPages(w.tab, screen);
      ScrollLinks(w.tab, EnsureSelectedVisible(w.tab, screen));
      StartBodyLinks(EnsureSelectedVisible(w.tab, screen), true);
    case Redrawn(screen) =>
      ScrollKeepsPages(w.tab, screen);
      ScrollLinks(w.tab, EnsureSelectedVisible(w.tab, screen));
  }

  lemma {:induction false} RunLinks(w: Watch, events: seq<Event>)
    requires Coherent(w) && Linked(w.tab) && forall i :: 0 <= i < |events| ==> Carried(events[i])
    ensures Linked(Follow(w, events).tab)
    decreases |events|
  {
    if events != [] {
      StepIsCoherent(w, events[0]);
      StepLinks(w, events[0]);
      RunLinks(Observe(w, events[0]), events[1..]);
    }
  }

  /**
   In every run, whatever pages the server sends, a tab's two pages adjoin; and they are fifty rows apart unless the
   first page says that its successor is elsewhere, or the second was not a whole page from the newest edge.
   */
  lemma TabPagesAdjoin(project: string, category: Category, events: seq<Event>)
    requires forall i :: 0 <= i < |events| ==> Carried(events[i])
    ensures var segments := Follow(Watch(Opened(project, category), 0, 0, []), events).tab.segments;
            && |segments| <= 2
            && (|segments| == 2 ==>
                  && Adjoin(segments[0], segments[1])
                  && (segments[1].requestedOffset == segments[0].requestedOffset + PAGE_SIZE
                      || segments[0].nextOffset == Some(segments[1].requestedOffset)
                      || (segments[0].requestedOffset == 0 && segments[1].requestedOffset < PAGE_SIZE)))
  {
    RunLinks(Watch(Opened(project, category), 0, 0, []), events);
  }

  // --- With pages that lead one to the next ---

  predicate GoodPage(s: Segment) {
    && s.requestedOffset >= 0 && s.requestedOffset % PAGE_SIZE == 0
    && (s.nextOffset.Some? ==> s.nextOffset.value == s.requestedOffset + PAGE_SIZE)
  }

  /** Consecutive offsets, and the outstanding request, if any, is for the page next to them. */
  predicate Chained(t: Tab) {
    && |t.segments| <= RESIDENT_PAGE_LIMIT
    && (forall i :: 0 <= i < |t.segments| ==> GoodPage(t.segments[i]))
    && (|t.segments| == 2 ==> t.segments[1].requestedOffset == t.segments[0].requestedOffset + PAGE_SIZE)
    && (t.bodyRequest.Some? ==> t.bodyRequest.value.requestedOffset == 0)
    && (t.paging.nextEdge.request.Some? ==> EdgeTarget(t, 1) == Some(t.paging.nextEdge.request.value.offset))
    && (t.paging.previousEdge.request.Some? ==> EdgeTarget(t, -1) == Some(t.paging.previousEdge.request.value.offset))
  }

  /** An answer carries the offset it was asked for, and a page that has a successor says it starts one page on. */
  predicate Orderly(e: Event) {
    e.Arrived? ==>
      && (e.message.pageRequest.Some? ==> e.message.requestedOffset == e.message.pageRequest.value.offset)
      && (e.message.answer.Loaded? && e.message.answer.response.nextOffset.Some? ==>
            e.message.answer.response.nextOffset.value == e.message.requestedOffset + PAGE_SIZE)
  }

  lemma StartBodyChains(t: Tab, retry: bool)
    requires Chained(t)
    ensures Chained(StartBody(t, retry))
  {
  }

  lemma DirectionalChains(t: Tab, delta: int)
    requires Chained(t) && delta in {-1, 1} && EdgeTarget(t, delta).Some?
    ensures Chained(StartDirectional(t, EdgeTarget(t, delta).value, delta))
  {
  }

  lemma PairChains(q: Tab, first: Segment, second: Segment)
    requires Outstanding(q) == 0 && q.segments == [first, second] && GoodPage(first) && GoodPage(second)
    requires second.requestedOffset == first.requestedOffset + PAGE_SIZE
    ensures Chained(q)
  {
  }

  lemma AppendChains(t: Tab, last: Segment, move: int, s: Segment)
    requires Outstanding(t) == 0 && move > 0 && GoodPage(s) && GoodPage(last)
    requires 1 <= |t.segments| <= RESIDENT_PAGE_LIMIT && last == t.segments[|t.segments| - 1]
    requires s.requestedOffset == last.requestedOffset + PAGE_SIZE
    ensures Chained(Joined(t, move, s))
  {
    NewPageAndNeighbour(t.segments, s);
    PairChains(Joined(t, move, s), last, s);
  }

  lemma PrependChains(t: Tab, first: Segment, move: int, s: Segment)
    requires Outstanding(t) == 0 && move < 0 && GoodPage(s) && GoodPage(first)
    requires 1 <= |t.segments| <= RESIDENT_PAGE_LIMIT && first == t.segments[0]
    requires first.requestedOffset == s.requestedOffset + PAGE_SIZE
    ensures Chained(Joined(t, move, s))
  {
    NewPageAndNeighbour(t.segments, s);
    PairChains(Joined(t, move, s), s, first);
  }

  lemma TargetIsGood(t: Tab, delta: int)
    requires Chained(t) && EdgeTarget(t, delta).Some? && delta != 0
    ensures t.segments != [] && GoodPage(t.segments[0]) && GoodPage(t.segments[|t.segments| - 1])
    ensures EdgeTarget(t, delta).value >= 0 && EdgeTarget(t, delta).value % PAGE_SIZE == 0
    ensures if delta > 0 then EdgeTarget(t, delta).value == t.segments[|t.segments| - 1].requestedOffset + PAGE_SIZE
            else t.segments[0].requestedOffset == EdgeTarget(t, delta).value + PAGE_SIZE
  {
    assert GoodPage(t.segments[0]) && GoodPage(t.segments[|t.segments| - 1]);
    if delta < 0 {
      AlignedAtLeast(t.segments[0].requestedOffset);
    }
  }

  lemma AlignedAtLeast(n: int)
    requires n > 0 && n % PAGE_SIZE == 0
    ensures n >= PAGE_SIZE && (n - PAGE_SIZE) % PAGE_SIZE == 0
  {
  }

  lemma ScrollChains(t: Tab, q: Tab)
    requires Chained(t) && SamePages(t, q)
    ensures Chained(q)
  {
  }

  lemma PageAnswerChains(w: Watch, m: Message, screen: Screen)
    requires Coherent(w) && Chained(w.tab) && !AnswersBody(w.tab, m) && AnswersPage(w.tab, m)
    requires Orderly(Arrived(m, screen))
    ensures Chained(PageLoaded(w.tab, m, screen))
  {
    var r := m.pageRequest.value;
    assert r.move != 0 && r.direction != Initial;
    if Usable(w.tab, m.answer) {
      var done := w.tab.(paging := Complete(w.tab.paging, r));
      var s := SegmentFrom(m.requestedOffset, m.answer.response);
      var delta := if r.move > 0 then 1 else -1;
      assert EdgeTarget(w.tab, delta) == Some(r.offset) == EdgeTarget(done, delta);
      TargetIsGood(w.tab, delta);
      if r.move > 0 {
        AppendChains(done, done.segments[|done.segments| - 1], r.move, s);
      } else {
        PrependChains(done, done.segments[0], r.move, s);
      }
      ScrollKeepsPages(Joined(done, r.move, s), screen);
      ScrollChains(Joined(done, r.move, s), EnsureSelectedVisible(Joined(done, r.move, s), screen));
    }
  }

  lemma BodyAnswerChains(w: Watch, m: Message, screen: Screen)
    requires Coherent(w) && Chained(w.tab) && AnswersBody(w.tab, m)
    requires Orderly(Arrived(m, screen))
    ensures Chained(PageLoaded(w.tab, m, screen))
  {
    if Usable(w.tab, m.answer) {
      var q := ReplaceSegments(w.tab.(bodyRequest := None), m.requestedOffset, m.answer.response);
      assert Chained(q);
      ScrollKeepsPages(q, screen);
      ScrollChains(q, EnsureSelectedVisible(q, screen));
    }
  }

  lemma MoveChains(t: Tab, q: Tab, delta: int)
    requires Chained(t) && delta in {-1, 1}
    requires MovesOrAsks(t, q, delta)
    ensures Chained(q)
  {
    if SamePages(t, q) {
      ScrollChains(t, q);
    } else {
      DirectionalChains(t, delta);
    }
  }

  lemma StepChains(w: Watch, e: Event)
    requires Coherent(w) && Chained(w.tab) && Orderly(e)
    ensures Chained(Step(w.tab, e))
  {
    match e
    case CatalogChanged => StartBodyChains(w.tab.(refreshPending := true), true);
    case Arrived(m, screen) =>
      if AnswersBody(w.tab, m) {
        BodyAnswerChains(w, m, screen);
      } else if AnswersPage(w.tab, m) {
        PageAnswerChains(w, m, screen);
      }
      StartBodyChains(PageLoaded(w.tab, m, screen), true);
    case Arrow(delta, screen) =>
      var d := if delta > 0 then 1 else -1;
      KeyMoves(w.tab, d, screen);
      MoveChains(w.tab, MoveSelection(w.tab, d, screen), d);
    case PageKey(direction, screen) =>
      var d := if direction > 0 then 1 else -1;
      KeyMoves(w.tab, d, screen);
      MoveChains(w.tab, MoveSelectionPage(w.tab, d, screen), d);
    case RetryKey => StartBodyChains(w.tab, true);
    case Shown(screen) =>
      ScrollKeepsPages(w.tab, screen);
      ScrollChains(w.tab, EnsureSelectedVisible(w.tab, screen));
      StartBodyChains(EnsureSelectedVisible(w.tab, screen), true);
    case Redrawn(screen) =>
      ScrollKeepsPages(w.tab, screen);
      ScrollChains(w.tab, EnsureSelectedVisible(w.tab, screen));
  }

  lemma {:induction false} RunChains(w: Watch, events: seq<Event>)
    requires Coherent(w) && Chained(w.tab) && forall i :: 0 <= i < |events| ==> Orderly(events[i])
    ensures Chained(Follow(w, events).tab)
    decreases |events|
  {
    if events != [] {
      StepIsCoherent(w, events[0]);
      StepChains(w, events[0]);
      RunChains(Observe(w, events[0]), events[1..]);
    }
  }

  /** With a server whose pages lead one to the next, a tab's two pages are always neighbours. */
  lemma OrderlyPagesAreConsecutive(project: string, category: Category, events: seq<Event>)
    requires forall i :: 0 <= i < |events| ==> Orderly(events[i])
    ensures var segments := Follow(Watch(Opened(project, category), 0, 0, []), events).tab.segments;
            && |segments| <= 2
            && (|segments| == 2 ==> segments[1].requestedOffset == segments[0].requestedOffset + PAGE_SIZE)
  {
    RunChains(Watch(Opened(project, category), 0, 0, []), events);
  }
}
