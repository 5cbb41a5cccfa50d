/** What the user's keys, a resize and a shown question begin: a delivery, a rendering, an announcement. */
module AskAnswers {
  import opened Prelude
  import opened AskController
  import opened AskRuns
  import opened AskProjection

  // --- Where a prompt goes ---

  /** Two prompts of one tool call: their ids differ in outer whitespace at most. */
  predicate SameCall(a: Asked, b: Asked) {
    TrimSpace(a.prompt.toolCallId) == TrimSpace(b.prompt.toolCallId)
  }

  /**
   A prompt that arrives takes the place of the current one if that is of the same tool call, keeping its origin; it
   becomes current, under a new token, if none is; and otherwise waits last.
   */
  lemma ArrivalGoesWhereItBelongs(s: Asks, a: Asked)
    ensures var t := Step(s, Arrives(a));
            if s.current.None? then
              t.current == Some(a) && t.queue == s.queue && t.token == s.token + 1 && t.delivery.None? && t.active.None?
            else if SameCall(s.current.value, a) then
              t.current == Some(Asked(a.prompt, s.current.value.origin)) && t.queue == s.queue && t.token == s.token
              && t.delivery == s.delivery && t.active == s.active
            else t == s.(queue := s.queue + [a])
  {
  }

  /** Resolving a tool call drops all its prompts; if that was the current one, the next takes its place under a new token. */
  lemma ResolvingMovesOn(s: Asks, id: string)
    ensures var t := Step(s, Resolves(id));
            var left := WithoutId(s.queue, TrimSpace(id));
            if s.current.Some? && TrimSpace(s.current.value.prompt.toolCallId) == TrimSpace(id) then
              && t.delivery.None? && t.active.None? && t.token > s.token
              && (if left == [] then t.current.None? && t.queue == [] else t.current == Some(left[0]) && t.queue == left[1..])
            else t == s.(queue := left)
  {
  }

  // --- When a delivery begins ---

  /** There is a prompt that can be answered, the answer is for it, and it fits. */
  predicate CanDeliver(s: Asks, answerId: string, prepared: Prepared) {
    && s.current.Some? && s.current.value.prompt.toolCallId != ""
    && (TrimSpace(answerId) == "" || TrimSpace(answerId) == IdOf(s.current.value))
    && prepared == Deliverable
  }

  /** The attempt was never numbered before, in this state. */
  predicate IsNew(s: Asks, d: Delivery) {
    && d.generation > s.generation && d.generation !in s.cancelled
    && (s.delivery.Some? ==> s.delivery.value.generation != d.generation)
  }

  predicate NumbersGiven(s: Asks) {
    && (forall g :: g in s.cancelled ==> g <= s.generation)
    && (s.delivery.Some? ==> s.delivery.value.generation <= s.generation)
  }

  lemma StepGivesNumbers(s: Asks, e: Event)
    requires NumbersGiven(s)
    ensures NumbersGiven(Step(s, e))
  {
  }

  lemma {:induction false} RunGivesNumbers(s: Asks, events: seq<Event>)
    requires NumbersGiven(s)
    ensures NumbersGiven(Follow(s, events))
    decreases |events|
  {
    if events != [] {
      StepGivesNumbers(s, events[0]);
      RunGivesNumbers(Step(s, events[0]), events[1..]);
    }
  }

  /**
   In every run, when the user submits an answer: a new delivery for the current prompt is under way exactly if none was
   and the prompt can be answered so; otherwise the one under way, or none, stays as it was.
   */
  lemma SubmittingDeliversExactly(events: seq<Event>, answerId: string, prepared: Prepared)
    ensures var s := Follow(NO_ASKS, events);
            var t := Step(s, Submits(answerId, prepared));
            && (if s.delivery.None? && CanDeliver(s, answerId, prepared) then
                  t.delivery.Some? && t.delivery.value.toolCallId == s.current.value.prompt.toolCallId && IsNew(s, t.delivery.value)
                  && t.delivery.value.generation !in t.cancelled
                else t.delivery == s.delivery)
            && t.current == s.current && t.queue == s.queue
            && forall g :: g in s.cancelled ==> g in t.cancelled
  {
    RunGivesNumbers(NO_ASKS, events);
  }

  /** The same for declining, which calls off a delivery under way first. */
  lemma DecliningDeliversExactly(events: seq<Event>, prepared: Prepared)
    ensures var s := Follow(NO_ASKS, events);
            var t := Step(s, Declines(prepared));
            && (if CanDeliver(s, "", prepared) then
                  t.delivery.Some? && t.delivery.value.toolCallId == s.current.value.prompt.toolCallId && IsNew(s, t.delivery.value)
                  && t.delivery.value.generation !in t.cancelled
                else t.delivery.None?)
            && (s.delivery.Some? ==> s.delivery.value.generation in t.cancelled)
            && t.current == s.current && t.queue == s.queue
  {
    assert Trimmed("");
    RunGivesNumbers(NO_ASKS, events);
  }

  /** A delivery under way ends only with its own result, by being called off, or with its prompt. */
  lemma DeliveryStaysUntilEnded(s: Asks, e: Event, d: Delivery)
    requires s.delivery == Some(d) && IsCurrent(s, TrimSpace(d.toolCallId))
    ensures Step(s, e).delivery.None? ==>
              || e.Declines? || (e.DeliveryEnds? && e.delivery == d)
              || (e.Resolves? && TrimSpace(e.toolCallId) == TrimSpace(d.toolCallId))
  {
  }

  // --- The width in force ---

  function LastWidth(events: seq<Event>): Option<int>
    decreases |events|
  {
    if events == [] then None
    else if events[|events| - 1].Resizes? then events[|events| - 1].width
    else LastWidth(events[..|events| - 1])
  }

  lemma StepKeepsWidth(s: Asks, e: Event)
    ensures Step(s, e).width == if e.Resizes? then e.width else s.width
  {
  }

  /** In every run the width is the one last reported. */
  lemma {:induction false} WidthIsLatest(events: seq<Event>)
    ensures Follow(NO_ASKS, events).width == LastWidth(events)
    decreases |events|
  {
    if events != [] {
      var before := events[..|events| - 1];
      FollowLast(NO_ASKS, events);
      WidthIsLatest(before);
      StepKeepsWidth(Follow(NO_ASKS, before), events[|events| - 1]);
    }
  }

  // --- When an activation is announced ---

  /** A live prompt is on screen that was not announced yet. */
  predicate Unannounced(s: Asks) {
    s.current.Some? && s.active.Some? && s.active.value.activationPreview.Some?
  }

  /** Attention announces what was not announced yet, and does nothing else. */
  lemma AttentionAnnouncesExactly(s: Asks)
    ensures var t := Step(s, Attends);
            if Unannounced(s) then
              t.notified == s.notified + [s.token] && !Unannounced(t) && t.active.Some?
              && t.active.value.rows == s.active.value.rows && t.current == s.current
            else t == s
  {
  }

  /**
   The first rendering shown of a live prompt announces it, at once if it has the user's attention and otherwise as soon as
   it has; later renderings of the same prompt, and prompts from a hydration, announce nothing new.
   */
  lemma FirstShowingAnnounces(s: Asks, r: RenderRequest, rows: seq<string>, preview: string, attended: bool)
    requires s.inFlight == Some(r) && s.desired.Some? && r.token == s.token && r.identity == s.desired.value.identity
    ensures var t := Step(s, RenderEnds(r, Some(rows), preview, attended));
            var due := s.desired.value.candidate.origin == Live && (s.active.None? || s.active.value.activationPreview.Some?);
            && t.active.Some? && t.active.value.rows == rows && t.active.value.renderedAt == r.identity
            && t.notified == (if due && attended then s.notified + [s.token] else s.notified)
            && (Unannounced(t) <==> due && !attended)
            && (due && !attended ==> t.active.value.activationPreview == Some(preview))
  {
  }

  /** A rendering that fails leaves what is shown, and is made again only when something else calls for it. */
  lemma FailedRenderingWaits(s: Asks, r: RenderRequest, preview: string, attended: bool)
    requires s.inFlight == Some(r) && s.desired.Some? && r.token == s.token && r.identity == s.desired.value.identity
    ensures Step(s, RenderEnds(r, None, preview, attended)) == s.(inFlight := None)
  {
  }

  /** A result that is not wanted any more shows nothing; what is wanted by now is rendered next. */
  lemma UnwantedResultMakesWay(s: Asks, r: RenderRequest, outcome: Option<seq<string>>, preview: string, attended: bool)
    requires s.inFlight == Some(r) && !(s.desired.Some? && r.token == s.token && r.identity == s.desired.value.identity)
    ensures var t := Step(s, RenderEnds(r, outcome, preview, attended));
            && t.active == s.active && t.current == s.current && t.desired == s.desired && t.notified == s.notified
            && (if s.desired.None? then t.inFlight.None?
                else t.inFlight == Some(RenderRequest(s.token, s.operations + 1, s.desired.value.identity))
                     && t.operations == s.operations + 1)
  {
  }
}
