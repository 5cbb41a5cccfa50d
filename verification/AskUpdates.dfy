/**
 Whether the prompts that wait are the ones last received for their ids. A prompt that arrives again replaces the current
 one, but not one in the queue, and a rendering under way can bring an older text back.
 */
module AskUpdates {
  import opened Prelude
  import opened AskController
  import opened AskRuns
  import opened AskProjection

  /** The prompt last received for each id. */
  function Received(last: map<string, Prompt>, e: Event): map<string, Prompt> {
    if e.Arrives? then last[IdOf(e.asked) := e.asked.prompt] else last
  }

  predicate IsLatest(a: Asked, last: map<string, Prompt>) {
    IdOf(a) in last && last[IdOf(a)] == a.prompt
  }

  predicate QueueLatest(queue: seq<Asked>, last: map<string, Prompt>) {
    forall i :: 0 <= i < |queue| ==> IsLatest(queue[i], last)
  }

  /** The current prompt and all that are queued are the ones last received for their ids. */
  predicate Latest(s: Asks, last: map<string, Prompt>) {
    (s.current.Some? ==> IsLatest(s.current.value, last)) && QueueLatest(s.queue, last)
  }

  /** Another prompt arrives for an id that already waits in the queue. */
  predicate Outdates(s: Asks, e: Event) {
    e.Arrives? && exists i :: 0 <= i < |s.queue| && IdOf(s.queue[i]) == IdOf(e.asked) && s.queue[i].prompt != e.asked.prompt
  }

  lemma {:induction false} FilteredIsLatest(queue: seq<Asked>, id: string, last: map<string, Prompt>)
    requires QueueLatest(queue, last)
    ensures QueueLatest(WithoutId(queue, id), last)
    decreases |queue|
  {
    if queue != [] {
      FilteredIsLatest(queue[1..], id, last);
    }
  }

  lemma ResolveIsLatest(s: Asks, id: string, last: map<string, Prompt>)
    requires Latest(s, last)
    ensures Latest(Resolve(s, id), last)
  {
    FilteredIsLatest(s.queue, TrimSpace(id), last);
    var left := s.(queue := WithoutId(s.queue, TrimSpace(id)));
    if IsCurrent(left, TrimSpace(id)) && left.queue != [] {
      assert IsLatest(left.queue[0], last);
    }
  }

  lemma QueueAfterArrival(queue: seq<Asked>, a: Asked, last: map<string, Prompt>)
    requires QueueLatest(queue, last)
    ensures QueueLatest(queue, last[IdOf(a) := a.prompt]) <==>
            !exists i :: 0 <= i < |queue| && IdOf(queue[i]) == IdOf(a) && queue[i].prompt != a.prompt
  {
    var newer := last[IdOf(a) := a.prompt];
    forall i | 0 <= i < |queue|
      ensures IsLatest(queue[i], newer) <==> !(IdOf(queue[i]) == IdOf(a) && queue[i].prompt != a.prompt)
    {
      assert IsLatest(queue[i], last);
    }
  }

  lemma AcceptIsLatest(s: Asks, a: Asked, last: map<string, Prompt>)
    requires Latest(s, last) && Ordered(s)
    ensures Latest(Accept(s, a), last[IdOf(a) := a.prompt]) <==> !Outdates(s, Arrives(a))
  {
    var newer := last[IdOf(a) := a.prompt];
    QueueAfterArrival(s.queue, a, last);
    var t := Accept(s, a);
    if IsCurrent(s, IdOf(a)) || s.current.None? {
      assert t.queue == s.queue && t.current.Some? && IsLatest(t.current.value, newer);
    } else {
      assert t.queue == s.queue + [a] && t.current == s.current;
      assert QueueLatest(t.queue, newer) <==> QueueLatest(s.queue, newer) by {
        if QueueLatest(t.queue, newer) {
          forall i | 0 <= i < |s.queue| ensures IsLatest(s.queue[i], newer) {
            assert t.queue[i] == s.queue[i];
          }
        }
      }
    }
  }

  /** Prompts and renderings are up to date: the latest of their ids, and renderings of the latest. */
  predicate UpToDate(s: Asks, last: map<string, Prompt>) {
    Latest(s, last) && KeepsUp(s)
  }

  /** The result wanted is of a prompt that has been updated since, and puts the older text back. */
  predicate Reverts(s: Asks, e: Event) {
    && e.RenderEnds? && s.inFlight == Some(e.request) && Wanted(s, e.request) && e.outcome.Some? && s.current.Some?
    && s.desired.value.candidate.prompt != s.current.value.prompt
  }

  lemma RenderIsLatest(s: Asks, e: Event, last: map<string, Prompt>)
    requires Ordered(s) && CandidateAgrees(s) && Latest(s, last) && e.RenderEnds?
    ensures Latest(Step(s, e), last) <==> !Reverts(s, e)
  {
    var t := Step(s, e);
    assert t.queue == s.queue;
    if s.inFlight == Some(e.request) && Wanted(s, e.request) && e.outcome.Some? {
      assert t.current == Some(s.desired.value.candidate);
    } else {
      assert t.current == s.current;
    }
  }

  /** An event keeps all waiting prompts the latest, exactly when it neither outdates nor reverts one. */
  lemma StepIsLatest(s: Asks, e: Event, last: map<string, Prompt>)
    requires Ordered(s) && CandidateAgrees(s) && Latest(s, last)
    ensures Latest(Step(s, e), Received(last, e)) <==> !Outdates(s, e) && !Reverts(s, e)
  {
    match e
    case Arrives(a) => AcceptIsLatest(s, a, last);
    case Resolves(id) => ResolveIsLatest(s, id, last);
    case DeliveryEnds(d, failed) => ResolveIsLatest(s, d.toolCallId, last);
    case RenderEnds(_, _, _, _) => RenderIsLatest(s, e, last);
    case Submits(id, prepared) => AnswersAreDelivery(s, id, prepared);
    case Declines(prepared) => AnswersAreDelivery(s, "", prepared);
    case Resizes(_) =>
    case Attends =>
  }

  lemma ScheduleAgrees(s: Asks)
    requires CandidateAgrees(s)
    ensures CandidateAgrees(Schedule(s))
  {
  }

  lemma ResolveAgrees(s: Asks, id: string)
    requires CandidateAgrees(s)
    ensures CandidateAgrees(Resolve(s, id))
  {
    var left := s.(queue := WithoutId(s.queue, TrimSpace(id)));
    var idle := CancelDelivery(left);
    if idle.queue != [] {
      ScheduleAgrees(SetActive(idle.(queue := idle.queue[1..]), idle.queue[0]));
    }
  }

  lemma StepAgrees(s: Asks, e: Event)
    requires Ordered(s) && CandidateAgrees(s)
    ensures Ordered(Step(s, e)) && CandidateAgrees(Step(s, e))
  {
    StepMovesPrompts(s, e);
    match e
    case Arrives(a) =>
      if IsCurrent(s, IdOf(a)) {
        ScheduleAgrees(s.(current := Some(s.current.value.(prompt := a.prompt))));
      } else if s.current.None? {
        ScheduleAgrees(SetActive(s, a));
      }
    case Resolves(id) => ResolveAgrees(s, id);
    case DeliveryEnds(d, failed) => ResolveAgrees(s, d.toolCallId);
    case Submits(id, prepared) => AnswersAreDelivery(s, id, prepared);
    case Declines(prepared) => AnswersAreDelivery(s, "", prepared);
    case Resizes(width) => ScheduleAgrees(s.(width := width));
    case RenderEnds(_, _, _, _) =>
    case Attends =>
  }

  predicate AlwaysLatest(s: Asks, last: map<string, Prompt>, events: seq<Event>)
    decreases |events|
  {
    Latest(s, last) && (events != [] ==> AlwaysLatest(Step(s, events[0]), Received(last, events[0]), events[1..]))
  }

  predicate NeverLost(s: Asks, events: seq<Event>)
    decreases |events|
  {
    events != [] ==> !Outdates(s, events[0]) && !Reverts(s, events[0]) && NeverLost(Step(s, events[0]), events[1..])
  }

  lemma {:induction false} LatestFrom(s: Asks, last: map<string, Prompt>, events: seq<Event>)
    requires Ordered(s) && CandidateAgrees(s) && Latest(s, last)
    ensures AlwaysLatest(s, last, events) <==> NeverLost(s, events)
    decreases |events|
  {
    if events != [] {
      var e := events[0];
      StepIsLatest(s, e, last);
      StepAgrees(s, e);
      if Latest(Step(s, e), Received(last, e)) {
        LatestFrom(Step(s, e), Received(last, e), events[1..]);
      }
    }
  }

  /**
   Through a whole run every prompt that waits, current or queued, is the one last received for its id, exactly when no
   prompt arrives for an id already queued with another text, and no rendering result arrives that is still wanted for a
   text the current prompt no longer has.
   */
  lemma PromptsStayLatestExactly(events: seq<Event>)
    ensures AlwaysLatest(NO_ASKS, map[], events) <==> NeverLost(NO_ASKS, events)
  {
    LatestFrom(NO_ASKS, map[], events);
  }

  // --- Renderings that keep up ---

  predicate AlwaysUpToDate(s: Asks, last: map<string, Prompt>, events: seq<Event>)
    decreases |events|
  {
    UpToDate(s, last) && (events != [] ==> AlwaysUpToDate(Step(s, events[0]), Received(last, events[0]), events[1..]))
  }

  predicate NeverMissed(s: Asks, events: seq<Event>)
    decreases |events|
  {
    events != [] ==> !Blind(s, events[0]) && !Outdates(s, events[0]) && NeverMissed(Step(s, events[0]), events[1..])
  }

  /** While the wanted rendering keeps up with the prompt, its result reverts nothing. */
  lemma KeepingUpRevertsNothing(s: Asks, e: Event)
    requires KeepsUp(s)
    ensures !Reverts(s, e)
  {
  }

  lemma {:induction false} UpToDateFrom(s: Asks, last: map<string, Prompt>, events: seq<Event>)
    requires Ordered(s) && CandidateAgrees(s) && UpToDate(s, last)
    ensures AlwaysUpToDate(s, last, events) <==> NeverMissed(s, events)
    ensures NeverMissed(s, events) ==> NeverLost(s, events)
    decreases |events|
  {
    if events != [] {
      var e := events[0];
      KeepingUpRevertsNothing(s, e);
      StepIsLatest(s, e, last);
      KeepsUpExactlyUnlessBlind(s, e);
      StepAgrees(s, e);
      if UpToDate(Step(s, e), Received(last, e)) {
        UpToDateFrom(Step(s, e), Received(last, e), events[1..]);
      }
    }
  }

  /**
   Through a whole run every prompt that waits is the one last received for its id, and any rendering wanted is of it,
   exactly when no update is blind and no prompt arrives for an id already queued with another text.
   */
  lemma RenderingsKeepUpExactly(events: seq<Event>)
    ensures AlwaysUpToDate(NO_ASKS, map[], events) <==> NeverMissed(NO_ASKS, events)
    ensures NeverMissed(NO_ASKS, events) ==> NeverLost(NO_ASKS, events)
  {
    UpToDateFrom(NO_ASKS, map[], events);
  }

  // --- What was last received, told by the events alone ---

  /** The prompt of the last arrival with the id. */
  function LastArrival(events: seq<Event>, id: string): Option<Prompt>
    decreases |events|
  {
    if events == [] then None
    else
      var last := events[|events| - 1];
      if last.Arrives? && IdOf(last.asked) == id then Some(last.asked.prompt) else LastArrival(events[..|events| - 1], id)
  }

  function ReceivedAll(events: seq<Event>): map<string, Prompt>
    decreases |events|
  {
    if events == [] then map[] else Received(ReceivedAll(events[..|events| - 1]), events[|events| - 1])
  }

  lemma {:induction false} ReceivedIsLast(events: seq<Event>, id: string)
    ensures id in ReceivedAll(events) <==> LastArrival(events, id).Some?
    ensures id in ReceivedAll(events) ==> LastArrival(events, id) == Some(ReceivedAll(events)[id])
    decreases |events|
  {
    if events != [] {
      ReceivedIsLast(events[..|events| - 1], id);
    }
  }

  /** The invariant along a run, told from its end. */
  lemma {:induction false} RunIsLatest(events: seq<Event>)
    requires NeverLost(NO_ASKS, events)
    ensures var s := Follow(NO_ASKS, events); Ordered(s) && CandidateAgrees(s) && Latest(s, ReceivedAll(events))
    decreases |events|
  {
    if events != [] {
      var before, e := events[..|events| - 1], events[|events| - 1];
      NeverLostSplits(NO_ASKS, events);
      RunIsLatest(before);
      FollowLast(NO_ASKS, events);
      var s := Follow(NO_ASKS, before);
      StepIsLatest(s, e, ReceivedAll(before));
      StepAgrees(s, e);
    }
  }

  lemma {:induction false} NeverLostSplits(s: Asks, events: seq<Event>)
    requires events != [] && NeverLost(s, events)
    ensures var before := events[..|events| - 1];
            && NeverLost(s, before)
            && !Outdates(Follow(s, before), events[|events| - 1]) && !Reverts(Follow(s, before), events[|events| - 1])
    decreases |events|
  {
    if |events| > 1 {
      NeverLostSplits(Step(s, events[0]), events[1..]);
      assert events[1..][..|events| - 2] == events[..|events| - 1][1..];
    }
  }

  /** In every such run the current prompt is the last that arrived with its id. */
  lemma CurrentPromptIsLastArrival(events: seq<Event>)
    requires NeverLost(NO_ASKS, events)
    ensures var s := Follow(NO_ASKS, events);
            s.current.Some? ==> LastArrival(events, IdOf(s.current.value)) == Some(s.current.value.prompt)
  {
    RunIsLatest(events);
    var s := Follow(NO_ASKS, events);
    if s.current.Some? {
      ReceivedIsLast(events, IdOf(s.current.value));
    }
  }

  /** A blind update is not lost if the width becomes known again before the older rendering ends. */
  lemma BlindUpdateCanRecover(a: Asked, b: Asked, rows: seq<string>, preview: string, attended: bool)
    requires IdOf(a) == IdOf(b) && a.prompt != b.prompt
    ensures var s := Follow(NO_ASKS, [Resizes(Some(80)), Arrives(a), Resizes(None)]);
            var t := Step(Step(s, Arrives(b)), Resizes(Some(80)));
            && Blind(s, Arrives(b)) && s.inFlight.Some? && t.inFlight == s.inFlight
            && !Reverts(t, RenderEnds(s.inFlight.value, Some(rows), preview, attended))
            && RenderDone(t, s.inFlight.value, Some(rows), preview, attended).current == Some(Asked(b.prompt, a.origin))
  {
    var events := [Resizes(Some(80)), Arrives(a), Resizes(None)];
    FollowThree(NO_ASKS, events[0], events[1], events[2]);
  }

  /** A prompt that arrives again while it is queued is overlooked: the older text becomes current. */
  lemma OutdatedPromptIsReachable(a: Asked, b: Asked, newer: Asked)
    requires IdOf(a) != IdOf(b) && IdOf(b) == IdOf(newer) && b.prompt != newer.prompt
    ensures var events := [Arrives(a), Arrives(b), Arrives(newer), Resolves(a.prompt.toolCallId)];
            var s := Follow(NO_ASKS, events);
            s.current == Some(b) && LastArrival(events, IdOf(b)) == Some(newer.prompt)
  {
    var events := [Arrives(a), Arrives(b), Arrives(newer), Resolves(a.prompt.toolCallId)];
    var s1 := Step(NO_ASKS, events[0]);
    assert events[1..] == [events[1], events[2], events[3]];
    FollowThree(s1, events[1], events[2], events[3]);
    var s3 := Step(Step(s1, events[1]), events[2]);
    assert s3.queue == [b, newer] && s3.current == Some(a);
    assert [b, newer][1..] == [newer] && [newer][1..] == [];
    assert WithoutId(s3.queue, IdOf(a)) == [b] + WithoutId([newer], IdOf(a)) == [b, newer];
    assert events[..3][2] == Arrives(newer);
  }
}
