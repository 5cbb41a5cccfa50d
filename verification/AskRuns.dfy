/** What holds in every run of the prompts: their order, the answers' deliveries, and what is rendered. */
module AskRuns {
  import opened Prelude
  import opened AskController

  // --- The prompts keep their order ---

  function Ids(queue: seq<Asked>): (ids: seq<string>)
    ensures |ids| == |queue| && forall i :: 0 <= i < |queue| ==> ids[i] == IdOf(queue[i])
  {
    seq(|queue|, i requires 0 <= i < |queue| => IdOf(queue[i]))
  }

  /** The unresolved prompts: the current one, then the queue. */
  function Waiting(s: Asks): seq<string> {
    (if s.current.Some? then [IdOf(s.current.value)] else []) + Ids(s.queue)
  }

  function Removed(ids: seq<string>, id: string): (r: seq<string>)
    ensures id !in r
  {
    if ids == [] then [] else if ids[0] == id then Removed(ids[1..], id) else [ids[0]] + Removed(ids[1..], id)
  }

  predicate Subsequence(a: seq<string>, b: seq<string>) {
    a == [] || (b != [] && (Subsequence(a, b[1..]) || (a[0] == b[0] && Subsequence(a[1..], b[1..]))))
  }

  /** Nothing is current only when nothing waits, and a rendering under way is for the prompt that is current. */
  predicate Ordered(s: Asks) {
    && (s.current.None? ==> s.queue == [] && s.desired.None? && s.active.None?)
    && (s.desired.Some? ==> s.current.Some? && IdOf(s.desired.value.candidate) == IdOf(s.current.value))
  }

  lemma {:induction false} FilterMatches(queue: seq<Asked>, id: string)
    ensures Ids(WithoutId(queue, id)) == Removed(Ids(queue), id)
    decreases |queue|
  {
    if queue != [] {
      FilterMatches(queue[1..], id);
      assert Ids(queue)[1..] == Ids(queue[1..]);
    }
  }

  lemma ScheduleKeepsWaiting(s: Asks)
    requires s.current.None? ==> s.queue == [] && s.desired.None? && s.active.None?
    requires s.desired.Some? ==> s.current.Some? && IdOf(s.desired.value.candidate) == IdOf(s.current.value)
    ensures Ordered(Schedule(s)) && Waiting(Schedule(s)) == Waiting(s)
  {
  }

  lemma NextKeepsQueue(idle: Asks)
    requires idle.queue != []
    ensures var next := SetActive(idle.(queue := idle.queue[1..]), idle.queue[0]);
            Waiting(next) == Ids(idle.queue) && next.desired.None? && next.current.Some?
  {
  }

  lemma AdvanceDropsFirst(s: Asks)
    requires Ordered(s) && s.current.Some?
    ensures Ordered(Advance(s)) && Waiting(Advance(s)) == Ids(s.queue)
  {
    var idle := CancelDelivery(s);
    if idle.queue != [] {
      NextKeepsQueue(idle);
      ScheduleKeepsWaiting(SetActive(idle.(queue := idle.queue[1..]), idle.queue[0]));
    }
  }

  /** Resolving an id removes it, wherever it waits, and nothing else. */
  lemma ResolveRemovesExactly(s: Asks, toolCallId: string)
    requires Ordered(s)
    ensures Ordered(Resolve(s, toolCallId))
    ensures Waiting(Resolve(s, toolCallId)) == Removed(Waiting(s), TrimSpace(toolCallId))
  {
    var id := TrimSpace(toolCallId);
    var left := s.(queue := WithoutId(s.queue, id));
    FilterMatches(s.queue, id);
    if s.current.Some? {
      assert Waiting(s)[1..] == Ids(s.queue);
      assert Waiting(left) == [IdOf(s.current.value)] + Removed(Ids(s.queue), id);
      if IsCurrent(left, id) {
        AdvanceDropsFirst(left);
      }
    } else {
      assert Waiting(s) == [] == Waiting(left);
    }
  }

  lemma AcceptAppends(s: Asks, a: Asked)
    requires Ordered(s)
    ensures Ordered(Accept(s, a))
    ensures Waiting(Accept(s, a)) == if IsCurrent(s, IdOf(a)) then Waiting(s) else Waiting(s) + [IdOf(a)]
  {
    if IsCurrent(s, IdOf(a)) {
      ScheduleKeepsWaiting(s.(current := Some(s.current.value.(prompt := a.prompt))));
    } else if s.current.None? {
      ScheduleKeepsWaiting(SetActive(s, a));
    } else {
      assert Ids(s.queue + [a]) == Ids(s.queue) + [IdOf(a)];
    }
  }

  lemma RenderKeepsWaiting(s: Asks, r: RenderRequest, outcome: Option<seq<string>>, preview: string, attended: bool)
    requires Ordered(s)
    ensures Ordered(RenderDone(s, r, outcome, preview, attended))
    ensures Waiting(RenderDone(s, r, outcome, preview, attended)) == Waiting(s)
  {
  }

  /** What each event does to the prompts that wait. */
  function WaitingAfter(s: Asks, e: Event): seq<string> {
    match e
    case Arrives(a) => if IsCurrent(s, IdOf(a)) then Waiting(s) else Waiting(s) + [IdOf(a)]
    case Resolves(id) => Removed(Waiting(s), TrimSpace(id))
    case DeliveryEnds(d, failed) =>
      if s.delivery == Some(d) && !failed then Removed(Waiting(s), TrimSpace(d.toolCallId)) else Waiting(s)
    case _ => Waiting(s)
  }

  /** What the order of the prompts depends on. */
  predicate SamePrompts(s: Asks, t: Asks) {
    t.current == s.current && t.queue == s.queue && t.desired == s.desired && (s.active.None? ==> t.active.None?)
  }

  lemma AnswersKeepPrompts(s: Asks, answerId: string, prepared: Prepared)
    ensures SamePrompts(s, Submit(s, answerId, prepared)) && SamePrompts(s, Decline(s, prepared))
    ensures SamePrompts(s, CancelDelivery(s)) && SamePrompts(s, Notify(s, true))
  {
  }

  lemma SamePromptsWait(s: Asks, t: Asks)
    requires Ordered(s) && SamePrompts(s, t)
    ensures Ordered(t) && Waiting(t) == Waiting(s)
  {
  }

  lemma StepMovesPrompts(s: Asks, e: Event)
    requires Ordered(s)
    ensures Ordered(Step(s, e)) && Waiting(Step(s, e)) == WaitingAfter(s, e)
  {
    match e
    case Arrives(a) => AcceptAppends(s, a);
    case Resolves(id) => ResolveRemovesExactly(s, id);
    case DeliveryEnds(d, failed) =>
      if s.delivery == Some(d) && failed {
        AnswersKeepPrompts(s, "", Unfit);
        SamePromptsWait(s, CancelDelivery(s));
      } else if s.delivery == Some(d) {
        ResolveRemovesExactly(s, d.toolCallId);
      }
    case Resizes(width) =>
      SamePromptsWait(s, s.(width := width));
      ScheduleKeepsWaiting(s.(width := width));
    case RenderEnds(r, outcome, preview, attended) => RenderKeepsWaiting(s, r, outcome, preview, attended);
    case Submits(id, prepared) =>
      AnswersKeepPrompts(s, id, prepared);
      SamePromptsWait(s, Submit(s, id, prepared));
    case Declines(prepared) =>
      AnswersKeepPrompts(s, "", prepared);
      SamePromptsWait(s, Decline(s, prepared));
    case Attends =>
      AnswersKeepPrompts(s, "", Unfit);
      SamePromptsWait(s, Notify(s, true));
  }

  // --- Subsequences ---

  lemma {:induction false} SubsequenceOfLonger(a: seq<string>, b: seq<string>, x: string)
    requires Subsequence(a, b)
    ensures Subsequence(a, b + [x]) && Subsequence(a + [x], b + [x])
    decreases |b|
  {
    var longer := b + [x];
    if b == [] {
      assert longer[1..] == [];
      assert a + [x] == [x] && (a + [x])[1..] == [];
    } else {
      assert longer[1..] == b[1..] + [x];
      if Subsequence(a, b[1..]) {
        SubsequenceOfLonger(a, b[1..], x);
      } else {
        SubsequenceOfLonger(a[1..], b[1..], x);
        assert (a + [x])[1..] == a[1..] + [x];
      }
    }
  }

  lemma {:induction false} RemovedIsSubsequence(a: seq<string>, b: seq<string>, id: string)
    requires Subsequence(a, b)
    ensures Subsequence(Removed(a, id), b)
    decreases |b|
  {
    if a != [] {
      if Subsequence(a, b[1..]) {
        RemovedIsSubsequence(a, b[1..], id);
      } else {
        RemovedIsSubsequence(a[1..], b[1..], id);
        if a[0] != id {
          assert Removed(a, id)[1..] == Removed(a[1..], id);
        }
      }
    }
  }

  /** The ids of the prompts that arrived, in order. */
  function Arrivals(events: seq<Event>): seq<string> {
    if events == [] then []
    else
      var last := events[|events| - 1];
      Arrivals(events[..|events| - 1]) + Arrival(last)
  }

  lemma {:induction false} FollowLast(s: Asks, events: seq<Event>)
    requires events != []
    ensures Follow(s, events) == Step(Follow(s, events[..|events| - 1]), events[|events| - 1])
    decreases |events|
  {
    if |events| > 1 {
      FollowLast(Step(s, events[0]), events[1..]);
      assert events[1..][..|events| - 2] == events[..|events| - 1][1..];
    } else {
      assert events[1..] == [];
    }
  }

  function Arrival(e: Event): seq<string> {
    if e.Arrives? then [IdOf(e.asked)] else []
  }

  lemma StepKeepsOrder(s: Asks, e: Event, arrivals: seq<string>)
    requires Ordered(s) && Subsequence(Waiting(s), arrivals)
    ensures Ordered(Step(s, e)) && Subsequence(Waiting(Step(s, e)), arrivals + Arrival(e))
  {
    StepMovesPrompts(s, e);
    assert !e.Arrives? ==> arrivals + Arrival(e) == arrivals;
    if e.Arrives? {
      SubsequenceOfLonger(Waiting(s), arrivals, IdOf(e.asked));
    } else if e.Resolves? {
      RemovedIsSubsequence(Waiting(s), arrivals, TrimSpace(e.toolCallId));
    } else if e.DeliveryEnds? {
      RemovedIsSubsequence(Waiting(s), arrivals, TrimSpace(e.delivery.toolCallId));
    }
  }

  /** In every run, the current prompt followed by the queue is a subsequence of the arrivals. */
  lemma {:induction false} PromptsKeepArrivalOrder(events: seq<Event>)
    ensures Ordered(Follow(NO_ASKS, events))
    ensures Subsequence(Waiting(Follow(NO_ASKS, events)), Arrivals(events))
    decreases |events|
  {
    if events != [] {
      var before := events[..|events| - 1];
      PromptsKeepArrivalOrder(before);
      FollowLast(NO_ASKS, events);
      StepKeepsOrder(Follow(NO_ASKS, before), events[|events| - 1], Arrivals(before));
    }
  }

  // --- Deliveries ---

  /** The delivery under way answers the current prompt, and every other attempt was called off. */
  predicate DeliverySound(s: Asks) {
    && (s.delivery.Some? ==>
          IsCurrent(s, TrimSpace(s.delivery.value.toolCallId)) && 1 <= s.delivery.value.generation <= s.generation)
    && (forall g :: 1 <= g <= s.generation ==>
                      g in s.cancelled || (s.delivery.Some? && s.delivery.value.generation == g))
  }

  /** The fields a delivery depends on are as before; the current prompt keeps its id. */
  predicate SameDelivery(s: Asks, t: Asks) {
    && t.delivery == s.delivery && t.generation == s.generation && t.cancelled == s.cancelled
    && (s.current.Some? ==> t.current.Some? && IdOf(t.current.value) == IdOf(s.current.value))
  }

  lemma SameDeliveryIsSound(s: Asks, t: Asks)
    requires DeliverySound(s) && SameDelivery(s, t)
    ensures DeliverySound(t)
  {
  }

  lemma CancelIsSound(s: Asks)
    requires DeliverySound(s)
    ensures DeliverySound(CancelDelivery(s)) && CancelDelivery(s).delivery.None?
  {
  }

  lemma AnswerIsSound(s: Asks, answerId: string, prepared: Prepared)
    requires DeliverySound(s) && s.delivery.None?
    ensures DeliverySound(Answer(s, answerId, prepared))
  {
  }

  lemma IdleIsSound(s: Asks, t: Asks)
    requires DeliverySound(s) && s.delivery.None?
    requires t.delivery.None? && t.generation == s.generation && t.cancelled == s.cancelled
    ensures DeliverySound(t)
  {
  }

  lemma AcceptIsSound(s: Asks, a: Asked)
    requires DeliverySound(s)
    ensures DeliverySound(Accept(s, a))
  {
    if IsCurrent(s, IdOf(a)) || s.current.Some? {
      SameDeliveryIsSound(s, Accept(s, a));
    } else {
      CancelIsSound(s);
      IdleIsSound(CancelDelivery(s), Accept(s, a));
    }
  }

  lemma ResolveIsSound(s: Asks, id: string)
    requires DeliverySound(s)
    ensures DeliverySound(Resolve(s, id))
  {
    var left := s.(queue := WithoutId(s.queue, TrimSpace(id)));
    SameDeliveryIsSound(s, left);
    if IsCurrent(left, TrimSpace(id)) {
      CancelIsSound(left);
      IdleIsSound(CancelDelivery(left), Resolve(s, id));
    }
  }

  lemma StepDelivers(s: Asks, e: Event)
    requires DeliverySound(s) && Ordered(s)
    ensures DeliverySound(Step(s, e))
  {
    match e
    case Arrives(a) => AcceptIsSound(s, a);
    case Resolves(id) => ResolveIsSound(s, id);
    case Submits(id, prepared) => if s.delivery.None? { AnswerIsSound(s, id, prepared); }
    case Declines(prepared) =>
      CancelIsSound(s);
      AnswerIsSound(CancelDelivery(s), "", prepared);
    case DeliveryEnds(d, failed) =>
      if s.delivery == Some(d) {
        CancelIsSound(s);
        ResolveIsSound(s, d.toolCallId);
      }
    case Resizes(width) => SameDeliveryIsSound(s, Step(s, e));
    case RenderEnds(r, outcome, preview, attended) => SameDeliveryIsSound(s, Step(s, e));
    case Attends => SameDeliveryIsSound(s, Step(s, e));
  }

  lemma {:induction false} RunDelivers(s: Asks, events: seq<Event>)
    requires DeliverySound(s) && Ordered(s)
    ensures DeliverySound(Follow(s, events)) && Ordered(Follow(s, events))
    decreases |events|
  {
    if events != [] {
      StepDelivers(s, events[0]);
      StepMovesPrompts(s, events[0]);
      RunDelivers(Step(s, events[0]), events[1..]);
    }
  }

  /** In every run a delivery under way belongs to the current prompt; its success resolves that prompt and no other. */
  lemma DeliveryAnswersTheCurrentPrompt(events: seq<Event>, d: Delivery)
    requires Follow(NO_ASKS, events).delivery == Some(d)
    ensures var s := Follow(NO_ASKS, events);
            && IsCurrent(s, TrimSpace(d.toolCallId))
            && Waiting(Delivered(s, d, false)) == Removed(Waiting(s), IdOf(s.current.value))
            && Waiting(Delivered(s, d, true)) == Waiting(s) && Delivered(s, d, true).delivery.None?
  {
    RunDelivers(NO_ASKS, events);
    StepMovesPrompts(Follow(NO_ASKS, events), DeliveryEnds(d, false));
  }

  /** An attempt that was numbered and is not the one under way. */
  predicate Over(s: Asks, d: Delivery) {
    d.generation <= s.generation && s.delivery != Some(d)
  }

  lemma StepStaysOver(s: Asks, e: Event, d: Delivery)
    requires Over(s, d)
    ensures Over(Step(s, e), d)
  {
    match e
    case Arrives(a) => DeliveryOnlyEnds(s, Accept(s, a), d);
    case Resolves(id) => DeliveryOnlyEnds(s, Resolve(s, id), d);
    case DeliveryEnds(x, failed) => DeliveryOnlyEnds(s, Delivered(s, x, failed), d);
    case Resizes(width) => DeliveryOnlyEnds(s, Step(s, e), d);
    case RenderEnds(r, outcome, preview, attended) => DeliveryOnlyEnds(s, Step(s, e), d);
    case Attends => DeliveryOnlyEnds(s, Step(s, e), d);
    case Submits(id, prepared) =>
    case Declines(prepared) =>
  }

  lemma DeliveryOnlyEnds(s: Asks, t: Asks, d: Delivery)
    requires Over(s, d) && t.generation == s.generation && (t.delivery.None? || t.delivery == s.delivery)
    ensures Over(t, d)
  {
  }

  /** Once an attempt is withdrawn, superseded or finished, its result changes nothing, however much later it comes. */
  lemma {:induction false} StaleResultIsIgnored(s: Asks, events: seq<Event>, d: Delivery, failed: bool)
    requires Over(s, d)
    ensures Delivered(Follow(s, events), d, failed) == Follow(s, events)
    decreases |events|
  {
    if events != [] {
      StepStaysOver(s, events[0], d);
      StaleResultIsIgnored(Step(s, events[0]), events[1..], d, failed);
    }
  }
}
