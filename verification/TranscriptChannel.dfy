/**
 The goroutine that turns subscriptions into a bounded event stream, run against the controller: every interleaving
 of reading, losing, reopening, consuming and changing buffer ownership.
 */
module TranscriptChannel {
  import opened Prelude
  import opened OngoingController
  import opened TranscriptDelivery

  const STREAM_CAPACITY: nat := 64

  datatype StreamEvent =
    | HistoryRead(page: Option<seq<Row>>)
    | MessageRead(message: Message)
    | SubscriptionLost
    | OpenFailed(connectionError: bool)
    | CutoverDue(reason: Reason)

  /** Where the goroutine stands. */
  datatype Phase =
    | ReadingHistory
    | Subscribing(failureReported: bool)
    | Pumping
    | AwaitingRequest
    | CuttingOver(reason: Reason)
    | Closed

  /** How far the client is with a reopening it asked for: not asked, asked, or cut over and waiting for the hydration. */
  datatype Reopen = Idle | Requested | Hydrating

  /** What a request has to pass: one reopening at a time, none once the stream is over, one request in the channel. */
  datatype Gate = Gate(reopen: Reopen, closed: bool, slot: Option<Reason>)

  /** `sent` holds what each subscription has delivered; `stream` is the event channel. */
  datatype System = System(
    phase: Phase,
    sent: seq<seq<Message>>,
    stream: seq<StreamEvent>,
    gate: Gate,
    trace: Trace)

  const BOOT := System(ReadingHistory, [[]], [], Gate(Idle, false, None), START)

  /** Where `due` is given it says whether a resize is due and the surface is active at that moment. */
  datatype Action =
    | ReadHistory(page: Option<seq<Row>>)
    | OpenSubscription
    | FailToOpen(connectionError: bool)
    | ReadMessage(event: Event)
    | FailToRead
    | TakeRequest
    | EmitCutover
    | Cancel
    | NoticeClosed
    | AskFor(reason: Reason, due: bool)
    | Consume(admitted: bool, due: bool)
    | ChangeOwnership(owned: bool, due: bool)

  /** A failed attempt to open is reported once per outage, and always when it is not a connection error. */
  predicate Reports(s: System, a: Action) {
    a.FailToOpen? && s.phase.Subscribing? && !(a.connectionError && s.phase.failureReported)
  }

  /** The action can happen now; sending to a full stream blocks. Each subscription hydrates first and only then. */
  predicate Enabled(s: System, a: Action)
    requires s.sent != []
  {
    var room := |s.stream| < STREAM_CAPACITY;
    match a
    case ReadHistory(_) => s.phase.ReadingHistory? && room
    case OpenSubscription => s.phase.Subscribing?
    case FailToOpen(_) => s.phase.Subscribing? && (Reports(s, a) ==> room)
    case ReadMessage(event) => s.phase.Pumping? && room && (event.Hydrated? <==> Last(s.sent) == [])
    case FailToRead => s.phase.Pumping? && room
    case TakeRequest => (s.phase.Pumping? || s.phase.AwaitingRequest?) && s.gate.slot.Some?
    case EmitCutover => s.phase.CuttingOver? && room
    case Consume(_, _) => s.stream != []
    case NoticeClosed => s.phase.Closed? && s.stream == []
    case _ => true
  }

  /** What the controller is told when an event is consumed; failures to open concern only the status line. */
  function InputOf(e: StreamEvent, admitted: bool): (i: Option<Input>) {
    match e
    case HistoryRead(page) => if page.Some? then Some(History(page.value)) else None
    case MessageRead(m) => Some(Deliver(m, admitted))
    case SubscriptionLost => Some(Loss)
    case OpenFailed(_) => None
    case CutoverDue(reason) => Some(Cutover(reason))
  }

  /** What the controller is told by an action. */
  function Told(s: System, a: Action): (i: Option<Input>) {
    match a
    case Consume(admitted, _) => if s.stream == [] then None else InputOf(s.stream[0], admitted)
    case ChangeOwnership(owned, _) => Some(SetOwned(owned))
    case _ => None
  }

  // ---- The client's part in reopening ----

  function Pass(g: Gate, reason: Reason, due: bool): Gate {
    if g.closed || !g.reopen.Idle? then g
    else g.(reopen := Requested, slot := if g.slot.None? then Some(if due then Resize else reason) else g.slot)
  }

  function PassIf(g: Gate, reason: Option<Reason>, due: bool): Gate {
    if reason.None? then g else Pass(g, reason.value, due)
  }

  /** The controller took the message, and it is the hydration that was waited for. */
  predicate Rehydrates(c: Controller, m: Message, admitted: bool) {
    var e := Step(c, Deliver(m, admitted));
    !e.result.AdmissionRejected? && m.event.Hydrated? && e.next.hydrated && e.next.lastSequence == m.sequence
  }

  /** The gate when an event is consumed, before what the controller asks for is dealt with. */
  function Heard(g: Gate, c: Controller, e: StreamEvent, admitted: bool, due: bool): Gate {
    match e
    case CutoverDue(_) => if g.reopen.Idle? then g else g.(reopen := Hydrating)
    case SubscriptionLost => g.(reopen := Idle)
    case OpenFailed(connectionError) => if connectionError then g else g.(reopen := Idle, closed := true)
    case MessageRead(m) =>
      if !Rehydrates(c, m, admitted) || g.reopen.Requested? then g
      else if due then Pass(g.(reopen := Idle), Resize, due)
      else g.(reopen := Idle)
    case HistoryRead(_) => g
  }

  function Reaction(s: System, a: Action): Option<Reason> {
    var told := Told(s, a);
    if told.Some? then RequestOf(s.trace.run.c, told.value) else None
  }

  function GateAfter(s: System, a: Action): Gate {
    var g := s.gate;
    match a
    case TakeRequest => g.(slot := None)
    case NoticeClosed => g.(reopen := Idle, closed := true)
    case AskFor(reason, due) => Pass(g, reason, due)
    case Consume(admitted, due) =>
      if s.stream == [] then g
      else PassIf(Heard(g, s.trace.run.c, s.stream[0], admitted, due), Reaction(s, a), due)
    case ChangeOwnership(owned, due) =>
      var asked := PassIf(g, Reaction(s, a), due);
      if owned && due then Pass(asked, Resize, due) else asked
    case _ => g
  }

  function Next(s: System, a: Action): (r: System)
    requires s.sent != [] && s.trace.received != [] && Enabled(s, a)
    ensures r.sent != [] && r.trace.received != []
    ensures r.gate == GateAfter(s, a)
  {
    Moved(s, a).(gate := GateAfter(s, a))
  }

  /** What an action does beside the gate. */
  function Moved(s: System, a: Action): (r: System)
    requires s.sent != [] && s.trace.received != [] && Enabled(s, a)
    ensures r.sent != [] && r.trace.received != []
  {
    match a
    case ReadHistory(page) => s.(phase := Subscribing(false), stream := s.stream + [HistoryRead(page)])
    case OpenSubscription => s.(phase := Pumping)
    case FailToOpen(connectionError) =>
      s.(phase := if connectionError then Subscribing(true) else Closed,
         stream := if Reports(s, a) then s.stream + [OpenFailed(connectionError)] else s.stream)
    case ReadMessage(event) =>
      var m := Message(|Last(s.sent)| + 1, event);
      s.(sent := Grown(s.sent, m), stream := s.stream + [MessageRead(m)])
    case FailToRead => s.(phase := AwaitingRequest, stream := s.stream + [SubscriptionLost])
    case TakeRequest => s.(phase := CuttingOver(s.gate.slot.value))
    case EmitCutover =>
      s.(phase := Subscribing(false), sent := s.sent + [[]], stream := s.stream + [CutoverDue(s.phase.reason)])
    case Cancel => s.(phase := Closed)
    case NoticeClosed => s
    case AskFor(_, _) => s
    case Consume(_, _) =>
      var told := Told(s, a);
      s.(stream := s.stream[1..], trace := if told.Some? then Feed(s.trace, told.value) else s.trace)
    case ChangeOwnership(owned, _) => s.(trace := Feed(s.trace, SetOwned(owned)))
  }

  // ---- The events in the stream continue what has been consumed ----

  /** How far a consumer is: what it has received, and whether the open subscription is lost. */
  datatype Progress = Progress(received: seq<seq<Message>>, lost: bool, opening: bool)

  function Reached(t: Trace): (p: Progress) {
    Progress(t.received, t.lost, t.opening)
  }

  ghost predicate Expected(p: Progress, e: StreamEvent) {
    match e
    case HistoryRead(page) => p.opening
    case MessageRead(m) =>
      p.received != [] && !p.lost && m.sequence == |Last(p.received)| + 1 && (m.event.Hydrated? <==> m.sequence == 1)
    case SubscriptionLost => !p.lost
    case _ => true
  }

  function Absorb(p: Progress, e: StreamEvent): (r: Progress) {
    match e
    case HistoryRead(page) => p.(opening := p.opening && page.None?)
    case MessageRead(m) => if p.received == [] then p else p.(received := Grown(p.received, m), opening := false)
    case SubscriptionLost => p.(lost := true, opening := false)
    case OpenFailed(_) => p
    case CutoverDue(_) => p.(received := p.received + [[]], lost := false, opening := false)
  }

  ghost predicate Continues(p: Progress, stream: seq<StreamEvent>, end: Progress)
    decreases |stream|
  {
    if stream == [] then p == end else Expected(p, stream[0]) && Continues(Absorb(p, stream[0]), stream[1..], end)
  }

  lemma {:induction false} StreamGrows(p: Progress, stream: seq<StreamEvent>, end: Progress, e: StreamEvent)
    requires Continues(p, stream, end) && Expected(end, e)
    ensures Continues(p, stream + [e], Absorb(end, e))
    decreases |stream|
  {
    if stream == [] {
      assert (stream + [e])[1..] == [];
    } else {
      StreamGrows(Absorb(p, stream[0]), stream[1..], end, e);
      assert (stream + [e])[1..] == stream[1..] + [e];
    }
  }

  /** What the goroutine has sent out is what a consumer of the whole stream would have received. */
  ghost predicate Coherent(s: System, end: Progress) {
    && s.sent != [] && s.trace.received != []
    && Continues(Reached(s.trace), s.stream, end)
    && end.received == s.sent
    && (s.phase.ReadingHistory? ==> end.opening && s.sent == [[]])
    && (s.phase.ReadingHistory? || s.phase.Subscribing? ==> Last(s.sent) == [])
    && (s.phase.ReadingHistory? || s.phase.Subscribing? || s.phase.Pumping? ==> !end.lost)
  }

  /** Sending an event that is due keeps what was sent in step with the stream. */
  lemma {:induction false} SendIsCoherent(s: System, e: StreamEvent, end: Progress, next: System)
    requires Coherent(s, end) && Expected(end, e)
    requires next.stream == s.stream + [e] && next.trace == s.trace && next.sent == Absorb(end, e).received && next.sent != []
    requires !next.phase.ReadingHistory?
    requires next.phase.Subscribing? ==> Last(next.sent) == []
    requires next.phase.Subscribing? || next.phase.Pumping? ==> !Absorb(end, e).lost
    ensures Coherent(next, Absorb(end, e))
  {
    StreamGrows(Reached(s.trace), s.stream, end, e);
  }

  /** Consuming the first event of the stream is lawful and leaves the rest in step. */
  lemma {:induction false} ConsumeIsCoherent(s: System, admitted: bool, due: bool, end: Progress)
    requires Coherent(s, end) && s.stream != []
    ensures Coherent(Next(s, Consume(admitted, due)), end)
    ensures var told := Told(s, Consume(admitted, due)); told.Some? ==> Lawful(s.trace, told.value)
  {
    assert Expected(Reached(s.trace), s.stream[0]);
    assert Reached(Next(s, Consume(admitted, due)).trace) == Absorb(Reached(s.trace), s.stream[0]);
  }

  lemma {:induction false} OwnershipIsCoherent(s: System, owned: bool, due: bool, end: Progress)
    requires Coherent(s, end)
    ensures Coherent(Next(s, ChangeOwnership(owned, due)), end)
  {
    assert Reached(Feed(s.trace, SetOwned(owned))) == Reached(s.trace);
  }

  lemma {:induction false} StepIsCoherent(s: System, a: Action, end: Progress) returns (end': Progress)
    requires Coherent(s, end) && Enabled(s, a)
    ensures Coherent(Next(s, a), end')
    ensures Told(s, a).Some? ==> Lawful(s.trace, Told(s, a).value)
  {
    end' := end;
    match a
    case ReadHistory(page) =>
      end' := Absorb(end, HistoryRead(page));
      SendIsCoherent(s, HistoryRead(page), end, Next(s, a));
    case FailToOpen(connectionError) =>
      if Reports(s, a) { SendIsCoherent(s, OpenFailed(connectionError), end, Next(s, a)); }
    case ReadMessage(event) =>
      var e := MessageRead(Message(|Last(s.sent)| + 1, event));
      end' := Absorb(end, e);
      SendIsCoherent(s, e, end, Next(s, a));
    case FailToRead =>
      end' := Absorb(end, SubscriptionLost);
      SendIsCoherent(s, SubscriptionLost, end, Next(s, a));
    case EmitCutover =>
      end' := Absorb(end, CutoverDue(s.phase.reason));
      SendIsCoherent(s, CutoverDue(s.phase.reason), end, Next(s, a));
    case Consume(admitted, due) => ConsumeIsCoherent(s, admitted, due, end);
    case ChangeOwnership(owned, due) => OwnershipIsCoherent(s, owned, due, end);
    case OpenSubscription =>
    case TakeRequest =>
    case Cancel =>
    case NoticeClosed =>
    case AskFor(_, _) =>
  }

  // ---- Whole runs ----

  ghost predicate EnabledRun(s: System, actions: seq<Action>)
    requires s.sent != [] && s.trace.received != []
    decreases |actions|
  {
    actions != [] ==> Enabled(s, actions[0]) && EnabledRun(Next(s, actions[0]), actions[1..])
  }

  function Execute(s: System, actions: seq<Action>): (r: System)
    requires s.sent != [] && s.trace.received != [] && EnabledRun(s, actions)
    ensures r.sent != [] && r.trace.received != []
    decreases |actions|
  {
    if actions == [] then s else Execute(Next(s, actions[0]), actions[1..])
  }

  /** No resize cutover is consumed that would lose its reset under messages the terminal is showing. */
  ghost predicate KeepsResets(s: System, actions: seq<Action>)
    requires s.sent != [] && s.trace.received != [] && EnabledRun(s, actions)
    decreases |actions|
  {
    actions != [] ==>
      && (Told(s, actions[0]).Some? ==> Safe(s.trace, Told(s, actions[0]).value))
      && KeepsResets(Next(s, actions[0]), actions[1..])
  }

  lemma {:induction false} ConsumedIsSent(p: Progress, stream: seq<StreamEvent>, end: Progress)
    requires Continues(p, stream, end)
    ensures Extends(p.received, end.received)
    decreases |stream|
  {
    if stream != [] {
      ConsumedIsSent(Absorb(p, stream[0]), stream[1..], end);
    }
  }

  lemma {:induction false} ExecutionTracks(s: System, actions: seq<Action>, end: Progress, a: seq<Mark>, b: seq<Mark>)
    returns (end': Progress, a': seq<Mark>, b': seq<Mark>)
    requires Coherent(s, end) && Tracks(s.trace, a, b) && EnabledRun(s, actions) && KeepsResets(s, actions)
    ensures var r := Execute(s, actions); Coherent(r, end') && Tracks(r.trace, a', b')
    decreases |actions|
  {
    if actions == [] {
      end', a', b' := end, a, b;
    } else {
      end' := StepIsCoherent(s, actions[0], end);
      a', b' := a, b;
      var told := Told(s, actions[0]);
      if told.Some? {
        a', b' := StepTracks(s.trace, told.value, a, b);
      }
      end', a', b' := ExecutionTracks(Next(s, actions[0]), actions[1..], end', a', b');
    }
  }

  /**
   End to end: in every execution of goroutine, stream and controller, the works on the terminal split at resets into
   blocks, each exactly the terminal's share of the first k messages some subscription sent, in subscription order. Once
   the stream is read and the controller has caught up, the last block is all that the open subscription sent, what is
   still queued included; nothing is queued while the buffer is owned.
   */
  lemma {:induction false} EndToEndNoSilentGap(actions: seq<Action>)
    requires EnabledRun(BOOT, actions) && KeepsResets(BOOT, actions)
    ensures var r := Execute(BOOT, actions);
            exists marks :: ShowsInOrder(Works(r.trace.run.calls), marks, r.sent, r.trace.page)
    ensures var r := Execute(BOOT, actions);
            && (r.trace.run.c.owned ==> r.trace.run.c.queue == [])
            && r.trace.received != [] && (CaughtUp(r.trace) ==> ShowsAll(r.trace))
            && (r.stream == [] ==> r.trace.received == r.sent)
  {
    StartTracks();
    var end, a, b := ExecutionTracks(BOOT, actions, Reached(START), [Mark(0, 0)], [Mark(0, 0)]);
    var r := Execute(BOOT, actions);
    ConsumedIsSent(Reached(r.trace), r.stream, end);
    ShownStays(Works(r.trace.run.calls), a, r.trace.received, r.sent, r.trace.page);
    if CaughtUp(r.trace) {
      CaughtUpShowsAll(r.trace, a, b);
    }
  }
}
