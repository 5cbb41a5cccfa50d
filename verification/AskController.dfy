/**
 Questions put to the user: the current prompt and those queued behind it, the delivery of the user's answer, and the
 rendering of the question, of which one at a time runs in the background.
 */
module AskController {
  import opened Prelude

  datatype Prompt = Prompt(toolCallId: string, question: string)

  /** Prompts come with a live transcript or with the hydration of an older one. */
  datatype Origin = Live | Hydration

  datatype Asked = Asked(prompt: Prompt, origin: Origin)

  /** What a rendered question depends on. Theme and link style do not change while a question is shown. */
  datatype Identity = Identity(question: string, width: int)

  datatype RenderRequest = RenderRequest(token: nat, operation: nat, identity: Identity)

  datatype Desired = Desired(candidate: Asked, identity: Identity)

  datatype Projection = Projection(renderedAt: Identity, rows: seq<string>, activationPreview: Option<string>)

  /** An answer on its way: the prompt as its tool call names it, and the number of the attempt. */
  datatype Delivery = Delivery(toolCallId: string, generation: nat)

  datatype Asks = Asks(
    current: Option<Asked>,
    token: nat,
    queue: seq<Asked>,
    delivery: Option<Delivery>,
    generation: nat,
    cancelled: set<nat>,
    active: Option<Projection>,
    inFlight: Option<RenderRequest>,
    desired: Option<Desired>,
    operations: nat,
    width: Option<int>,
    notified: seq<nat>)

  const NO_ASKS := Asks(None, 0, [], None, 0, {}, None, None, None, 0, None, [])

  function IdOf(a: Asked): string {
    TrimSpace(a.prompt.toolCallId)
  }

  predicate IsCurrent(s: Asks, id: string) {
    s.current.Some? && IdOf(s.current.value) == id
  }

  // --- Rendering ---

  function CurrentIdentity(s: Asks): Option<Identity> {
    if s.current.None? || s.width.None? || s.width.value < 1 then None
    else Some(Identity(s.current.value.prompt.question, s.width.value))
  }

  function StartLatest(s: Asks): Asks {
    if s.desired.None? || s.inFlight.Some? then s
    else
      s.(operations := s.operations + 1,
         inFlight := Some(RenderRequest(s.token, s.operations + 1, s.desired.value.identity)))
  }

  function Schedule(s: Asks): Asks {
    var identity := CurrentIdentity(s);
    if identity.None? then s
    else if s.active.Some? && s.active.value.renderedAt == identity.value then s.(desired := None)
    else StartLatest(s.(desired := Some(Desired(s.current.value, identity.value))))
  }

  /** Announces an activation that is still unannounced, once the prompt has the user's attention. */
  function Notify(s: Asks, attended: bool): Asks {
    if !attended || s.current.None? || s.active.None? || s.active.value.activationPreview.None? then s
    else s.(active := Some(s.active.value.(activationPreview := None)), notified := s.notified + [s.token])
  }

  /** The result is for the current prompt and is the rendering now wanted. */
  predicate Wanted(s: Asks, r: RenderRequest) {
    r.token == s.token && s.desired.Some? && r.identity == s.desired.value.identity
  }

  function Activated(s: Asks, r: RenderRequest, rows: seq<string>, preview: string): Asks
    requires s.desired.Some?
  {
    var wanted := s.desired.value;
    var announces := wanted.candidate.origin == Live && (s.active.None? || s.active.value.activationPreview.Some?);
    s.(current := Some(wanted.candidate), desired := None,
       active := Some(Projection(r.identity, rows, if announces then Some(preview) else None)))
  }

  function RenderDone(s: Asks, r: RenderRequest, outcome: Option<seq<string>>, preview: string, attended: bool): Asks {
    if s.inFlight != Some(r) then s
    else
      var free := s.(inFlight := None);
      if !Wanted(free, r) then StartLatest(free)
      else if outcome.None? then free
      else Notify(Activated(free, r, outcome.value, preview), attended)
  }

  // --- The queue ---

  function CancelDelivery(s: Asks): Asks {
    if s.delivery.None? then s
    else s.(delivery := None, cancelled := s.cancelled + {s.delivery.value.generation})
  }

  function SetActive(s: Asks, a: Asked): Asks {
    CancelDelivery(s).(token := s.token + 1, current := Some(a), active := None, desired := None)
  }

  function Accept(s: Asks, a: Asked): Asks {
    if IsCurrent(s, IdOf(a)) then Schedule(s.(current := Some(s.current.value.(prompt := a.prompt))))
    else if s.current.None? then Schedule(SetActive(s, a))
    else s.(queue := s.queue + [a])
  }

  function WithoutId(queue: seq<Asked>, id: string): (r: seq<Asked>)
    ensures forall i :: 0 <= i < |r| ==> IdOf(r[i]) != id
  {
    if queue == [] then []
    else if IdOf(queue[0]) == id then WithoutId(queue[1..], id)
    else [queue[0]] + WithoutId(queue[1..], id)
  }

  function Advance(s: Asks): Asks {
    var idle := CancelDelivery(s);
    if idle.queue != [] then Schedule(SetActive(idle.(queue := idle.queue[1..]), idle.queue[0]))
    else idle.(current := None, token := idle.token + 1, active := None, desired := None)
  }

  function Resolve(s: Asks, toolCallId: string): Asks {
    var id := TrimSpace(toolCallId);
    var left := s.(queue := WithoutId(s.queue, id));
    if IsCurrent(left, id) then Advance(left) else left
  }

  // --- Answers ---

  /** How preparing an answer went: the prompt may lack ids, or the answer may not fit the prompt. */
  datatype Prepared = Unidentified | Unfit | Deliverable

  function Answer(s: Asks, answerId: string, prepared: Prepared): Asks {
    if s.current.None? then s
    else
      var named := TrimSpace(answerId);
      if named != "" && named != IdOf(s.current.value) then s
      else if prepared.Unidentified? || s.current.value.prompt.toolCallId == "" then s
      else
        var begun := s.(generation := s.generation + 1);
        if prepared.Unfit? then begun.(cancelled := begun.cancelled + {begun.generation})
        else begun.(delivery := Some(Delivery(s.current.value.prompt.toolCallId, begun.generation)))
  }

  /** Enter while an answer is on its way only says so; escape withdraws it and declines instead. */
  function Submit(s: Asks, answerId: string, prepared: Prepared): Asks {
    if s.delivery.Some? then s else Answer(s, answerId, prepared)
  }

  function Decline(s: Asks, prepared: Prepared): Asks {
    Answer(CancelDelivery(s), "", prepared)
  }

  function Delivered(s: Asks, d: Delivery, failed: bool): Asks {
    if s.delivery != Some(d) then s
    else if failed then CancelDelivery(s)
    else Resolve(s, d.toolCallId)
  }

  // --- Runs ---

  datatype Event =
    | Arrives(asked: Asked)
    | Resolves(toolCallId: string)
    | Submits(answerId: string, prepared: Prepared)
    | Declines(prepared: Prepared)
    | DeliveryEnds(delivery: Delivery, failed: bool)
    | Resizes(width: Option<int>)
    | RenderEnds(request: RenderRequest, outcome: Option<seq<string>>, preview: string, attended: bool)
    | Attends

  function Step(s: Asks, e: Event): Asks {
    match e
    case Arrives(a) => Accept(s, a)
    case Resolves(id) => Resolve(s, id)
    case Submits(id, prepared) => Submit(s, id, prepared)
    case Declines(prepared) => Decline(s, prepared)
    case DeliveryEnds(d, failed) => Delivered(s, d, failed)
    case Resizes(width) => Schedule(s.(width := width))
    case RenderEnds(r, outcome, preview, attended) => RenderDone(s, r, outcome, preview, attended)
    case Attends => Notify(s, true)
  }

  function Follow(s: Asks, events: seq<Event>): Asks
    decreases |events|
  {
    if events == [] then s else Follow(Step(s, events[0]), events[1..])
  }

  // --- The client's fields ---

  method KeepOthers(queue: seq<Asked>, id: string) returns (kept: seq<Asked>)
    ensures kept == WithoutId(queue, id)
  {
    kept := [];
    var i := 0;
    assert queue[0..] == queue;
    while i < |queue|
      invariant i <= |queue|
      invariant kept + WithoutId(queue[i..], id) == WithoutId(queue, id)
    {
      assert queue[i..][1..] == queue[i + 1..];
      if IdOf(queue[i]) != id {
        kept := kept + [queue[i]];
      }
      i := i + 1;
    }
  }

  class AskModel {
    var current: Option<Asked>
    var currentToken: nat
    var queue: seq<Asked>
    var activeDelivery: Option<Delivery>
    var nextGeneration: nat
    var cancelled: set<nat>
    var activeProjection: Option<Projection>
    var inFlightProjection: Option<RenderRequest>
    var latestDesiredProjection: Option<Desired>
    var operations: nat
    var width: Option<int>
    var notified: seq<nat>

    function State(): Asks
      reads this
    {
      Asks(current, currentToken, queue, activeDelivery, nextGeneration, cancelled, activeProjection,
           inFlightProjection, latestDesiredProjection, operations, width, notified)
    }

    constructor ()
      ensures State() == NO_ASKS
    {
      current, currentToken, queue, activeDelivery, nextGeneration, cancelled := None, 0, [], None, 0, {};
      activeProjection, inFlightProjection, latestDesiredProjection, operations := None, None, None, 0;
      width, notified := None, [];
    }

    method StartLatestProjection() returns (started: Option<RenderRequest>)
      modifies this
      ensures State() == StartLatest(old(State()))
      ensures started.Some? <==> old(latestDesiredProjection.Some? && inFlightProjection.None?)
      ensures started.Some? ==> inFlightProjection == started
    {
      if latestDesiredProjection.None? || inFlightProjection.Some? {
        return None;
      }
      operations := operations + 1;
      inFlightProjection := Some(RenderRequest(currentToken, operations, latestDesiredProjection.value.identity));
      started := inFlightProjection;
    }

    method ScheduleProjection()
      modifies this
      ensures State() == Schedule(old(State()))
    {
      var identity := CurrentIdentity(State());
      if identity.None? {
        return;
      }
      if activeProjection.Some? && activeProjection.value.renderedAt == identity.value {
        latestDesiredProjection := None;
        return;
      }
      latestDesiredProjection := Some(Desired(current.value, identity.value));
      if inFlightProjection.None? {
        var _ := StartLatestProjection();
      }
    }

    method NotifyActivation(attended: bool)
      modifies this
      ensures State() == Notify(old(State()), attended)
    {
      if !attended || current.None? || activeProjection.None? || activeProjection.value.activationPreview.None? {
        return;
      }
      activeProjection := Some(activeProjection.value.(activationPreview := None));
      notified := notified + [currentToken];
    }

    method Activate(r: RenderRequest, rows: seq<string>, preview: string)
      requires latestDesiredProjection.Some?
      modifies this
      ensures State() == Activated(old(State()), r, rows, preview)
    {
      var desired := latestDesiredProjection.value;
      var initialActivation := activeProjection.None?;
      var activationPending := desired.candidate.origin == Live &&
        (initialActivation || activeProjection.value.activationPreview.Some?);
      current := Some(desired.candidate);
      activeProjection := Some(Projection(r.identity, rows, if activationPending then Some(preview) else None));
      latestDesiredProjection := None;
    }

    method ApplyRenderResult(r: RenderRequest, outcome: Option<seq<string>>, preview: string, attended: bool)
      modifies this
      ensures State() == RenderDone(old(State()), r, outcome, preview, attended)
    {
      if inFlightProjection.None? || r != inFlightProjection.value {
        return;
      }
      inFlightProjection := None;
      if || r.token != currentToken || latestDesiredProjection.None?
         || r.identity != latestDesiredProjection.value.identity {
        var _ := StartLatestProjection();
        return;
      }
      if outcome.None? {
        return;
      }
      Activate(r, outcome.value, preview);
      NotifyActivation(attended);
    }

    method CancelActiveDelivery()
      modifies this
      ensures State() == CancelDelivery(old(State()))
    {
      if activeDelivery.None? {
        return;
      }
      cancelled := cancelled + {activeDelivery.value.generation};
      activeDelivery := None;
    }

    method SetActiveAsk(a: Asked)
      modifies this
      ensures State() == SetActive(old(State()), a)
    {
      CancelActiveDelivery();
      currentToken := currentToken + 1;
      current := Some(a);
      activeProjection := None;
      latestDesiredProjection := None;
    }

    method AcceptPrompt(a: Asked)
      modifies this
      ensures State() == Accept(old(State()), a)
    {
      if current.Some? && IdOf(current.value) == IdOf(a) {
        current := Some(current.value.(prompt := a.prompt));
        ScheduleProjection();
        return;
      }
      if current.None? {
        SetActiveAsk(a);
        ScheduleProjection();
        return;
      }
      queue := queue + [a];
    }

    method AdvanceQueue()
      modifies this
      ensures State() == Advance(old(State()))
    {
      CancelActiveDelivery();
      if |queue| > 0 {
        var next := queue[0];
        queue := queue[1..];
        SetActiveAsk(next);
        ScheduleProjection();
        return;
      }
      current := None;
      currentToken := currentToken + 1;
      activeProjection := None;
      latestDesiredProjection := None;
    }

    method ResolvePrompt(toolCallId: string)
      modifies this
      ensures State() == Resolve(old(State()), toolCallId)
    {
      var id := TrimSpace(toolCallId);
      queue := KeepOthers(queue, id);
      if current.None? || IdOf(current.value) != id {
        return;
      }
      AdvanceQueue();
    }

    method AnswerPrompt(answerId: string, prepared: Prepared)
      modifies this
      ensures State() == Answer(old(State()), answerId, prepared)
    {
      if current.None? {
        return;
      }
      var named := TrimSpace(answerId);
      if named != "" && named != IdOf(current.value) {
        return;
      }
      if prepared.Unidentified? || current.value.prompt.toolCallId == "" {
        return;
      }
      nextGeneration := nextGeneration + 1;
      if prepared.Unfit? {
        cancelled := cancelled + {nextGeneration};
        return;
      }
      activeDelivery := Some(Delivery(current.value.prompt.toolCallId, nextGeneration));
    }

    method ApplyDeliveryResult(d: Delivery, failed: bool)
      modifies this
      ensures State() == Delivered(old(State()), d, failed)
    {
      if activeDelivery != Some(d) {
        return;
      }
      if !failed {
        ResolvePrompt(d.toolCallId);
        return;
      }
      CancelActiveDelivery();
    }
  }
}
