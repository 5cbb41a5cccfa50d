/** What is shown for the current prompt: one rendering at a time, never one for another prompt, announced once. */
module AskProjection {
  import opened Prelude
  import opened AskController
  import opened AskRuns

  // --- One rendering at a time, none lost ---

  /** The rendering wanted or shown is the one the current prompt needs at the present width. */
  predicate Fitting(s: Asks) {
    CurrentIdentity(s).Some? ==>
      if s.desired.Some? then s.desired.value.identity == CurrentIdentity(s).value
      else s.active.Some? && s.active.value.renderedAt == CurrentIdentity(s).value
  }

  predicate CandidateAgrees(s: Asks) {
    s.desired.Some? ==>
      && s.current.Some? && s.desired.value.candidate.origin == s.current.value.origin
      && s.desired.value.identity.question == s.desired.value.candidate.prompt.question
  }

  /** Rows on screen are what rendering their identity gives. */
  predicate Genuine(s: Asks, render: Identity -> seq<string>) {
    s.active.Some? ==> s.active.value.rows == render(s.active.value.renderedAt)
  }

  /** A wanted rendering is always being worked on, and requests carry numbers already given out. */
  predicate Working(s: Asks) {
    (s.desired.Some? ==> s.inFlight.Some?) && (s.inFlight.Some? ==> 1 <= s.inFlight.value.operation <= s.operations)
  }

  predicate Rendered(s: Asks, render: Identity -> seq<string>) {
    Ordered(s) && Fitting(s) && CandidateAgrees(s) && Genuine(s, render) && Working(s)
  }

  /** A result that arrives is what rendering gives, and no rendering fails. */
  predicate Faithful(e: Event, render: Identity -> seq<string>) {
    e.RenderEnds? ==> e.outcome == Some(render(e.request.identity))
  }

  lemma ScheduleRenders(s: Asks, render: Identity -> seq<string>)
    requires Ordered(s) && CandidateAgrees(s) && Genuine(s, render) && Working(s)
    ensures Rendered(Schedule(s), render)
  {
    ScheduleKeepsWaiting(s);
  }

  lemma AdvanceRenders(s: Asks, render: Identity -> seq<string>)
    requires Rendered(s, render) && s.current.Some?
    ensures Rendered(Advance(s), render)
  {
    var idle := CancelDelivery(s);
    if idle.queue != [] {
      ScheduleRenders(SetActive(idle.(queue := idle.queue[1..]), idle.queue[0]), render);
    }
  }

  lemma ResolveRenders(s: Asks, id: string, render: Identity -> seq<string>)
    requires Rendered(s, render)
    ensures Rendered(Resolve(s, id), render)
  {
    var left := s.(queue := WithoutId(s.queue, TrimSpace(id)));
    assert Rendered(left, render);
    if IsCurrent(left, TrimSpace(id)) {
      AdvanceRenders(left, render);
    }
  }

  lemma AcceptRenders(s: Asks, a: Asked, render: Identity -> seq<string>)
    requires Rendered(s, render)
    ensures Rendered(Accept(s, a), render)
  {
    if IsCurrent(s, IdOf(a)) {
      ScheduleRenders(s.(current := Some(s.current.value.(prompt := a.prompt))), render);
    } else if s.current.None? {
      ScheduleRenders(SetActive(s, a), render);
    }
  }

  lemma RenderDoneRenders(s: Asks, r: RenderRequest, preview: string, attended: bool, render: Identity -> seq<string>)
    requires Rendered(s, render)
    ensures Rendered(RenderDone(s, r, Some(render(r.identity)), preview, attended), render)
  {
    if s.inFlight == Some(r) {
      var free := s.(inFlight := None);
      if Wanted(free, r) {
        var shown := Activated(free, r, render(r.identity), preview);
        assert Ordered(shown) && Fitting(shown) && Genuine(shown, render);
      }
    }
  }

  predicate OnlyDelivery(s: Asks, t: Asks) {
    t == s.(delivery := t.delivery, generation := t.generation, cancelled := t.cancelled)
  }

  lemma AnswersAreDelivery(s: Asks, answerId: string, prepared: Prepared)
    ensures OnlyDelivery(s, Submit(s, answerId, prepared)) && OnlyDelivery(s, Decline(s, prepared))
    ensures OnlyDelivery(s, CancelDelivery(s))
  {
  }

  lemma DeliveryRenders(s: Asks, t: Asks, render: Identity -> seq<string>)
    requires Rendered(s, render) && OnlyDelivery(s, t)
    ensures Rendered(t, render)
  {
  }

  lemma NotifyRenders(s: Asks, attended: bool, render: Identity -> seq<string>)
    requires Rendered(s, render)
    ensures Rendered(Notify(s, attended), render)
  {
  }

  lemma StepRenders(s: Asks, e: Event, render: Identity -> seq<string>)
    requires Rendered(s, render) && Faithful(e, render)
    ensures Rendered(Step(s, e), render)
  {
    match e
    case Arrives(a) => AcceptRenders(s, a, render);
    case Resolves(id) => ResolveRenders(s, id, render);
    case DeliveryEnds(d, failed) =>
      if s.delivery == Some(d) {
        AnswersAreDelivery(s, "", Unfit);
        DeliveryRenders(s, CancelDelivery(s), render);
        ResolveRenders(s, d.toolCallId, render);
      }
    case Resizes(width) => ScheduleRenders(s.(width := width), render);
    case RenderEnds(r, outcome, preview, attended) => RenderDoneRenders(s, r, preview, attended, render);
    case Submits(id, prepared) =>
      AnswersAreDelivery(s, id, prepared);
      DeliveryRenders(s, Submit(s, id, prepared), render);
    case Declines(prepared) =>
      AnswersAreDelivery(s, "", prepared);
      DeliveryRenders(s, Decline(s, prepared), render);
    case Attends => NotifyRenders(s, true, render);
  }

  lemma {:induction false} RunRenders(s: Asks, events: seq<Event>, render: Identity -> seq<string>)
    requires Rendered(s, render) && forall i :: 0 <= i < |events| ==> Faithful(events[i], render)
    ensures Rendered(Follow(s, events), render)
    decreases |events|
  {
    if events != [] {
      StepRenders(s, events[0], render);
      RunRenders(Step(s, events[0]), events[1..], render);
    }
  }

  /**
   In every run without rendering errors: a wanted rendering is always being worked on; and once nothing is being worked
   on, a prompt whose width is known is shown exactly as rendering its present text at the present width gives.
   */
  lemma SettledPromptIsShown(events: seq<Event>, render: Identity -> seq<string>)
    requires forall i :: 0 <= i < |events| ==> Faithful(events[i], render)
    ensures var s := Follow(NO_ASKS, events);
            && (s.desired.Some? ==> s.inFlight.Some?)
            && (s.inFlight.None? && CurrentIdentity(s).Some? ==>
                  s.active.Some? && s.active.value.rows == render(CurrentIdentity(s).value))
  {
    RunRenders(NO_ASKS, events, render);
  }

  // --- Never for another prompt ---

  /** A run with the prompt's token that the rows on screen were rendered for. */
  datatype Shown = Shown(asks: Asks, token: nat)

  function Watch(w: Shown, e: Event): Shown {
    var s := w.asks;
    var t := Step(s, e);
    Shown(t, if e.RenderEnds? && s.inFlight == Some(e.request) && Wanted(s, e.request) && e.outcome.Some?
             then e.request.token else w.token)
  }

  function WatchAll(w: Shown, events: seq<Event>): Shown
    decreases |events|
  {
    if events == [] then w else WatchAll(Watch(w, events[0]), events[1..])
  }

  predicate BelongsToCurrent(w: Shown) {
    && (w.asks.active.Some? ==> w.token == w.asks.token && w.asks.current.Some?)
    && (w.asks.current.None? ==> w.asks.desired.None?)
  }

  lemma ResolveBelongs(s: Asks, id: string, token: nat)
    requires BelongsToCurrent(Shown(s, token))
    ensures BelongsToCurrent(Shown(Resolve(s, id), token))
  {
  }

  lemma RenderDoneBelongs(w: Shown, e: Event)
    requires BelongsToCurrent(w) && e.RenderEnds?
    ensures BelongsToCurrent(Watch(w, e))
  {
  }

  lemma StepBelongs(w: Shown, e: Event)
    requires BelongsToCurrent(w)
    ensures BelongsToCurrent(Watch(w, e))
  {
    match e
    case Resolves(id) => ResolveBelongs(w.asks, id, w.token);
    case DeliveryEnds(d, failed) =>
      ResolveBelongs(w.asks, d.toolCallId, w.token);
      AnswersAreDelivery(w.asks, "", Unfit);
    case RenderEnds(_, _, _, _) => RenderDoneBelongs(w, e);
    case Submits(id, prepared) => AnswersAreDelivery(w.asks, id, prepared);
    case Declines(prepared) => AnswersAreDelivery(w.asks, "", prepared);
    case Arrives(_) =>
    case Resizes(_) =>
    case Attends =>
  }

  lemma {:induction false} RunBelongs(w: Shown, events: seq<Event>)
    requires BelongsToCurrent(w)
    ensures BelongsToCurrent(WatchAll(w, events)) && WatchAll(w, events).asks == Follow(w.asks, events)
    decreases |events|
  {
    if events != [] {
      StepBelongs(w, events[0]);
      RunBelongs(Watch(w, events[0]), events[1..]);
    }
  }

  /** In every run, errors or not, the rows on screen were rendered for the prompt that is current. */
  lemma RowsBelongToCurrentPrompt(events: seq<Event>)
    ensures var w := WatchAll(Shown(NO_ASKS, 0), events);
            && w.asks == Follow(NO_ASKS, events)
            && (w.asks.active.Some? ==> w.asks.current.Some? && w.token == w.asks.token)
  {
    RunBelongs(Shown(NO_ASKS, 0), events);
  }

  // --- Announced at most once ---

  /** Announcements come in the order of activations, none twice, and only for live prompts. */
  predicate Announced(s: Asks) {
    && (forall i, j :: 0 <= i < j < |s.notified| ==> s.notified[i] < s.notified[j])
    && (forall i :: 0 <= i < |s.notified| ==> s.notified[i] <= s.token)
    && (s.notified != [] && s.notified[|s.notified| - 1] == s.token && s.current.Some? ==>
          s.active.Some? && s.active.value.activationPreview.None?)
    && (s.active.Some? && s.active.value.activationPreview.Some? ==> s.current.Some? && s.current.value.origin == Live)
    && (s.desired.Some? ==> s.current.Some? && s.desired.value.candidate.origin == s.current.value.origin)
  }

  /** The prompt, what is shown for it and what was announced are as before. */
  predicate SameAnnouncement(s: Asks, t: Asks) {
    && t.notified == s.notified && t.token == s.token && t.active == s.active
    && (t.current.Some? <==> s.current.Some?) && (s.current.Some? ==> t.current.value.origin == s.current.value.origin)
    && (t.desired.Some? ==> t.current.Some? && t.desired.value.candidate.origin == t.current.value.origin)
  }

  lemma SameIsAnnounced(s: Asks, t: Asks)
    requires Announced(s) && SameAnnouncement(s, t)
    ensures Announced(t)
  {
  }

  lemma NewTokenIsAnnounced(s: Asks, t: Asks)
    requires Announced(s)
    requires t.notified == s.notified && t.token > s.token && t.active.None?
    requires t.desired.Some? ==> t.current.Some? && t.desired.value.candidate.origin == t.current.value.origin
    ensures Announced(t)
  {
  }

  lemma NotifyIsAnnounced(s: Asks, attended: bool)
    requires Announced(s)
    ensures Announced(Notify(s, attended))
  {
  }

  lemma ActivatedIsAnnounced(s: Asks, r: RenderRequest, rows: seq<string>, preview: string)
    requires Announced(s) && s.desired.Some?
    ensures Announced(Activated(s, r, rows, preview))
  {
  }

  lemma RenderDoneIsAnnounced(s: Asks, r: RenderRequest, outcome: Option<seq<string>>, preview: string, attended: bool)
    requires Announced(s)
    ensures Announced(RenderDone(s, r, outcome, preview, attended))
  {
    if s.inFlight == Some(r) {
      var free := s.(inFlight := None);
      SameIsAnnounced(s, free);
      if !Wanted(free, r) {
        SameIsAnnounced(s, StartLatest(free));
      } else if outcome.Some? {
        ActivatedIsAnnounced(free, r, outcome.value, preview);
        NotifyIsAnnounced(Activated(free, r, outcome.value, preview), attended);
      }
    }
  }

  lemma AdvanceIsNew(s: Asks)
    ensures var t := Advance(s);
            && t.notified == s.notified && t.token > s.token && t.active.None?
            && (t.desired.Some? ==> t.current.Some? && t.desired.value.candidate.origin == t.current.value.origin)
  {
  }

  lemma ResolveIsAnnounced(s: Asks, id: string)
    requires Announced(s)
    ensures Announced(Resolve(s, id))
  {
    var left := s.(queue := WithoutId(s.queue, TrimSpace(id)));
    SameIsAnnounced(s, left);
    if IsCurrent(left, TrimSpace(id)) {
      AdvanceIsNew(left);
      NewTokenIsAnnounced(left, Advance(left));
    }
  }

  lemma AcceptIsAnnounced(s: Asks, a: Asked)
    requires Announced(s)
    ensures Announced(Accept(s, a))
  {
    if s.current.Some? {
      SameIsAnnounced(s, Accept(s, a));
    } else {
      NewTokenIsAnnounced(s, Accept(s, a));
    }
  }

  lemma DeliveryIsAnnounced(s: Asks, t: Asks)
    requires Announced(s) && OnlyDelivery(s, t)
    ensures Announced(t)
  {
    SameIsAnnounced(s, t);
  }

  lemma StepIsAnnounced(s: Asks, e: Event)
    requires Announced(s)
    ensures Announced(Step(s, e))
  {
    match e
    case Arrives(a) => AcceptIsAnnounced(s, a);
    case Resolves(id) => ResolveIsAnnounced(s, id);
    case DeliveryEnds(d, failed) =>
      if s.delivery == Some(d) {
        AnswersAreDelivery(s, "", Unfit);
        DeliveryIsAnnounced(s, CancelDelivery(s));
        ResolveIsAnnounced(s, d.toolCallId);
      }
    case RenderEnds(r, outcome, preview, attended) => RenderDoneIsAnnounced(s, r, outcome, preview, attended);
    case Attends => NotifyIsAnnounced(s, true);
    case Resizes(width) => SameIsAnnounced(s, Schedule(s.(width := width)));
    case Submits(id, prepared) =>
      AnswersAreDelivery(s, id, prepared);
      DeliveryIsAnnounced(s, Submit(s, id, prepared));
    case Declines(prepared) =>
      AnswersAreDelivery(s, "", prepared);
      DeliveryIsAnnounced(s, Decline(s, prepared));
  }

  lemma {:induction false} RunIsAnnounced(s: Asks, events: seq<Event>)
    requires Announced(s)
    ensures Announced(Follow(s, events))
    decreases |events|
  {
    if events != [] {
      StepIsAnnounced(s, events[0]);
      RunIsAnnounced(Step(s, events[0]), events[1..]);
    }
  }

  /** In every run each activation is announced at most once: no token is notified twice, none before its turn. */
  lemma ActivationIsAnnouncedOnce(events: seq<Event>)
    ensures var s := Follow(NO_ASKS, events);
            && (forall i, j :: 0 <= i < j < |s.notified| ==> s.notified[i] < s.notified[j])
            && (forall i :: 0 <= i < |s.notified| ==> s.notified[i] <= s.token)
  {
    RunIsAnnounced(NO_ASKS, events);
  }

  // --- Updates of the current prompt ---

  /** The rendering wanted is of the prompt as last received. */
  predicate KeepsUp(s: Asks) {
    s.desired.Some? ==> s.current == Some(s.desired.value.candidate)
  }

  /** An update of the current prompt while its width is unknown and an older text is still wanted. */
  predicate Blind(s: Asks, e: Event) {
    && e.Arrives? && IsCurrent(s, IdOf(e.asked)) && s.desired.Some?
    && (s.width.None? || s.width.value < 1) && s.desired.value.candidate.prompt != e.asked.prompt
  }

  /** Every event but a blind update keeps the wanted rendering up with the prompt, and a blind update never does. */
  lemma KeepsUpExactlyUnlessBlind(s: Asks, e: Event)
    requires Ordered(s) && CandidateAgrees(s) && KeepsUp(s)
    ensures KeepsUp(Step(s, e)) <==> !Blind(s, e)
  {
  }

  /** While the wanted rendering keeps up, no result changes the current prompt. */
  lemma RenderingKeepsPrompt(s: Asks, r: RenderRequest, outcome: Option<seq<string>>, preview: string, attended: bool)
    requires KeepsUp(s)
    ensures RenderDone(s, r, outcome, preview, attended).current == s.current
  {
  }

  /** After a blind update the result of the older rendering puts the older text back. */
  lemma BlindUpdateIsReverted(s: Asks, a: Asked, rows: seq<string>, preview: string, attended: bool)
    requires KeepsUp(s) && Blind(s, Arrives(a))
    requires s.inFlight.Some? && s.inFlight.value.token == s.token && s.inFlight.value.identity == s.desired.value.identity
    ensures Accept(s, a).current == Some(s.current.value.(prompt := a.prompt))
    ensures RenderDone(Accept(s, a), s.inFlight.value, Some(rows), preview, attended).current == s.current
    ensures s.current != Accept(s, a).current
  {
  }

  /** A blind update, and the result that undoes it, can come about: the width is known, then unknown again. */
  lemma BlindUpdateIsReachable(a: Asked, b: Asked, rows: seq<string>, preview: string, attended: bool)
    requires IdOf(a) == IdOf(b) && a.prompt != b.prompt
    ensures var s := Follow(NO_ASKS, [Resizes(Some(80)), Arrives(a), Resizes(None)]);
            && Blind(s, Arrives(b)) && s.inFlight.Some?
            && Accept(s, b).current == Some(Asked(b.prompt, a.origin))
            && RenderDone(Accept(s, b), s.inFlight.value, Some(rows), preview, attended).current == Some(a)
  {
    var events := [Resizes(Some(80)), Arrives(a), Resizes(None)];
    FollowThree(NO_ASKS, events[0], events[1], events[2]);
    BlindUpdateIsReverted(Follow(NO_ASKS, events), b, rows, preview, attended);
  }

  lemma FollowThree(s: Asks, a: Event, b: Event, c: Event)
    ensures Follow(s, [a, b, c]) == Step(Step(Step(s, a), b), c)
  {
    var first, second := Step(s, a), Step(Step(s, a), b);
    assert [a, b, c][1..] == [b, c] && [b, c][1..] == [c] && [c][1..] == [];
    assert Follow(second, [c]) == Follow(Step(second, c), []) == Step(second, c);
    assert Follow(first, [b, c]) == Follow(second, [c]);
    assert Follow(s, [a, b, c]) == Follow(first, [b, c]);
  }
}
