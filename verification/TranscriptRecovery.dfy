/**
 Recovery of the transcript: a terminal that waits for a hydration never waits in vain, and the goroutine never waits for
 a request that nobody will make.
 */
module TranscriptRecovery {
  import opened Prelude
  import opened OngoingController
  import opened TranscriptDelivery
  import opened TranscriptChannel

  predicate LossAhead(stream: seq<StreamEvent>) {
    exists i :: 0 <= i < |stream| && stream[i].SubscriptionLost?
  }

  predicate CutoverAhead(stream: seq<StreamEvent>) {
    exists i :: 0 <= i < |stream| && stream[i].CutoverDue?
  }

  predicate EndAhead(stream: seq<StreamEvent>) {
    exists i :: 0 <= i < |stream| && stream[i].OpenFailed? && !stream[i].connectionError
  }

  /** A cutover is on its way: asked for, being made, or in the stream; or the goroutine is done. */
  predicate CutoverComes(s: System) {
    s.gate.slot.Some? || s.phase.CuttingOver? || s.phase.Closed? || CutoverAhead(s.stream)
  }

  /** The open subscription has delivered nothing yet, so its hydration is still to come. */
  predicate HydrationComes(t: Trace)
    requires t.received != []
  {
    Last(t.received) == [] && !t.lost
  }

  /** Something that leads to a hydration lies ahead. */
  predicate Awaits(s: System)
    requires s.trace.received != []
  {
    CutoverComes(s) || LossAhead(s.stream) || HydrationComes(s.trace)
  }

  predicate Alive(s: System)
    requires s.trace.received != []
  {
    && (!s.trace.run.c.hydrated ==> Awaits(s))
    && (s.gate.reopen.Requested? ==> CutoverComes(s))
    && (s.gate.reopen.Hydrating? ==> !s.trace.run.c.hydrated && HydrationComes(s.trace))
    && (s.phase.AwaitingRequest? ==> s.gate.slot.Some? || LossAhead(s.stream))
    && (s.gate.closed || EndAhead(s.stream) ==> s.phase.Closed?)
  }

  /** The runtime admission accepts what is consumed; a rejection ends the client. */
  predicate Accepts(a: Action) {
    a.Consume? ==> a.admitted
  }

  // ---- The stream, with one event less or more ----

  lemma StreamShorter(stream: seq<StreamEvent>)
    requires stream != []
    ensures LossAhead(stream) ==> stream[0].SubscriptionLost? || LossAhead(stream[1..])
    ensures CutoverAhead(stream) ==> stream[0].CutoverDue? || CutoverAhead(stream[1..])
    ensures EndAhead(stream[1..]) ==> EndAhead(stream)
    ensures stream[0].OpenFailed? && !stream[0].connectionError ==> EndAhead(stream)
  {
    forall i | 0 < i < |stream| ensures stream[1..][i - 1] == stream[i] {
    }
    forall i | 0 <= i < |stream[1..]| ensures stream[i + 1] == stream[1..][i] {
    }
  }

  lemma StreamLonger(stream: seq<StreamEvent>, e: StreamEvent)
    ensures LossAhead(stream + [e]) <==> LossAhead(stream) || e.SubscriptionLost?
    ensures CutoverAhead(stream + [e]) <==> CutoverAhead(stream) || e.CutoverDue?
    ensures EndAhead(stream + [e]) <==> EndAhead(stream) || (e.OpenFailed? && !e.connectionError)
  {
    var longer := stream + [e];
    assert longer[|stream|] == e;
    assert forall i :: 0 <= i < |stream| ==> longer[i] == stream[i];
  }

  // ---- Each kind of action ----

  /** Asking keeps everything, and leaves a request unless one is already under way or the stream is over. */
  lemma PassAsks(g: Gate, reason: Reason, due: bool)
    ensures var r := Pass(g, reason, due);
            && r.closed == g.closed && (g.slot.Some? ==> r.slot == g.slot)
            && (!g.closed && g.reopen.Idle? ==> r.reopen.Requested? && r.slot.Some?)
            && (g.closed || !g.reopen.Idle? ==> r == g)
  {
  }

  lemma SendIsAlive(s: System, next: System, e: StreamEvent)
    requires s.trace.received != [] && Alive(s)
    requires next.stream == s.stream + [e] && next.trace == s.trace && next.gate == s.gate && !s.phase.Closed?
    requires s.phase.CuttingOver? ==> e.CutoverDue?
    requires next.phase.AwaitingRequest? ==> s.phase.AwaitingRequest? || e.SubscriptionLost?
    requires e.OpenFailed? && !e.connectionError ==> next.phase.Closed?
    ensures Alive(next)
  {
    StreamLonger(s.stream, e);
  }

  lemma OwnershipIsAlive(s: System, owned: bool, due: bool)
    requires s.sent != [] && s.trace.received != [] && Alive(s)
    ensures Alive(Next(s, ChangeOwnership(owned, due)))
  {
  }

  /** What becomes of the controller when a due event is consumed. */
  lemma ConsumedLeaves(s: System, due: bool)
    requires s.sent != [] && s.trace.received != [] && s.stream != []
    requires Told(s, Consume(true, due)).Some? ==> Lawful(s.trace, Told(s, Consume(true, due)).value)
    ensures var c, n := s.trace.run.c, Next(s, Consume(true, due)).trace.run.c;
            match s.stream[0]
            case SubscriptionLost => !n.hydrated && Reaction(s, Consume(true, due)).Some?
            case CutoverDue(_) => !n.hydrated && HydrationComes(Next(s, Consume(true, due)).trace)
            case MessageRead(m) =>
              && (!n.hydrated ==> Reaction(s, Consume(true, due)).Some?)
              && (!c.hydrated && HydrationComes(s.trace) ==> Rehydrates(c, m, true) && n.hydrated)
            case _ => n.hydrated == c.hydrated && HydrationComes(Next(s, Consume(true, due)).trace) == HydrationComes(s.trace)
  {
  }

  lemma LossIsAlive(s: System, due: bool)
    requires s.sent != [] && s.trace.received != [] && s.stream != [] && s.stream[0].SubscriptionLost? && Alive(s)
    ensures Alive(Next(s, Consume(true, due)))
  {
    StreamShorter(s.stream);
    PassAsks(s.gate.(reopen := Idle), SequenceGap, due);
  }

  lemma CutoverIsAlive(s: System, due: bool)
    requires s.sent != [] && s.trace.received != [] && s.stream != [] && s.stream[0].CutoverDue? && Alive(s)
    ensures Alive(Next(s, Consume(true, due)))
  {
    StreamShorter(s.stream);
  }

  lemma MessageIsAlive(s: System, due: bool)
    requires s.sent != [] && s.trace.received != [] && s.stream != [] && s.stream[0].MessageRead? && Alive(s)
    requires Lawful(s.trace, Deliver(s.stream[0].message, true))
    ensures Alive(Next(s, Consume(true, due)))
  {
    StreamShorter(s.stream);
    ConsumedLeaves(s, due);
  }

  lemma OtherIsAlive(s: System, due: bool)
    requires s.sent != [] && s.trace.received != [] && s.stream != [] && Alive(s)
    requires s.stream[0].HistoryRead? || s.stream[0].OpenFailed?
    ensures Alive(Next(s, Consume(true, due)))
  {
    StreamShorter(s.stream);
  }

  lemma ConsumeIsAlive(s: System, due: bool, end: Progress)
    requires Coherent(s, end) && Alive(s) && s.stream != []
    ensures Alive(Next(s, Consume(true, due)))
  {
    ConsumeIsCoherent(s, true, due, end);
    match s.stream[0]
    case SubscriptionLost => LossIsAlive(s, due);
    case CutoverDue(_) => CutoverIsAlive(s, due);
    case MessageRead(_) => MessageIsAlive(s, due);
    case HistoryRead(_) => OtherIsAlive(s, due);
    case OpenFailed(_) => OtherIsAlive(s, due);
  }

  lemma StepIsAlive(s: System, a: Action, end: Progress)
    requires Coherent(s, end) && Alive(s) && Enabled(s, a) && Accepts(a)
    ensures Alive(Next(s, a))
  {
    match a
    case ReadHistory(page) => SendIsAlive(s, Next(s, a), HistoryRead(page));
    case FailToOpen(connectionError) =>
      if Reports(s, a) { SendIsAlive(s, Next(s, a), OpenFailed(connectionError)); }
    case ReadMessage(event) => SendIsAlive(s, Next(s, a), MessageRead(Message(|Last(s.sent)| + 1, event)));
    case FailToRead => SendIsAlive(s, Next(s, a), SubscriptionLost);
    case EmitCutover => SendIsAlive(s, Next(s, a), CutoverDue(s.phase.reason));
    case AskFor(reason, due) => PassAsks(s.gate, reason, due);
    case Consume(_, due) => ConsumeIsAlive(s, due, end);
    case ChangeOwnership(owned, due) => OwnershipIsAlive(s, owned, due);
    case OpenSubscription =>
    case TakeRequest =>
    case Cancel =>
    case NoticeClosed =>
  }

  lemma {:induction false} RunIsAlive(s: System, actions: seq<Action>, end: Progress)
    requires Coherent(s, end) && Alive(s) && EnabledRun(s, actions)
    requires forall i :: 0 <= i < |actions| ==> Accepts(actions[i])
    ensures Alive(Execute(s, actions))
    decreases |actions|
  {
    if actions != [] {
      StepIsAlive(s, actions[0], end);
      var next := StepIsCoherent(s, actions[0], end);
      RunIsAlive(Next(s, actions[0]), actions[1..], next);
    }
  }

  /**
   In every execution, whatever is lost, refused, overflows or is asked for at the same time: while the controller has no
   hydration, one is still to come, or a cutover, or a loss that will lead to one, until the stream ends for good; and a
   goroutine that waits for a request finds one once its loss has been consumed.
   */
  lemma NeverWaitsInVain(actions: seq<Action>)
    requires EnabledRun(BOOT, actions) && forall i :: 0 <= i < |actions| ==> Accepts(actions[i])
    ensures var s := Execute(BOOT, actions);
            && s.trace.received != []
            && (!s.trace.run.c.hydrated ==>
                  s.phase.Closed? || s.gate.slot.Some? || s.phase.CuttingOver? || HydrationComes(s.trace)
                  || exists i :: 0 <= i < |s.stream| && (s.stream[i].CutoverDue? || s.stream[i].SubscriptionLost?))
            && (s.phase.AwaitingRequest? && !LossAhead(s.stream) ==> s.gate.slot.Some?)
  {
    RunIsAlive(BOOT, actions, Reached(START));
  }

  /** The reason an action asks for rehydration with, whether or not the request passes. */
  function AsksFor(s: System, a: Action): Option<Reason> {
    match a
    case AskFor(reason, _) => Some(reason)
    case Consume(_, _) => if s.stream == [] then None else if s.stream[0].SubscriptionLost? then Some(SequenceGap) else Reaction(s, a)
    case ChangeOwnership(owned, _) =>
      if owned && !s.trace.run.c.owned && s.trace.run.c.overflowed then Some(QueueOverflow) else None
    case _ => None
  }

  predicate Due(a: Action) {
    (a.AskFor? || a.Consume? || a.ChangeOwnership?) && a.due
  }

  /** A request passes the gate with its reason, or as the resize that is due; a request in the channel stays. */
  predicate Kept(g: Gate, r: Gate, reason: Option<Reason>, due: bool) {
    && (g.slot.Some? ==> r.slot == g.slot)
    && (g.slot.None? && r.slot.Some? ==> r.slot == reason || (r.slot == Some(Resize) && due))
  }

  lemma PassKeeps(g: Gate, reason: Reason, due: bool)
    ensures Kept(g, Pass(g, reason, due), Some(reason), due)
  {
  }

  lemma AskKeeps(s: System, reason: Reason, due: bool)
    ensures Kept(s.gate, GateAfter(s, AskFor(reason, due)), Some(reason), due)
  {
    PassKeeps(s.gate, reason, due);
  }

  lemma OwnershipKeeps(s: System, owned: bool, due: bool)
    ensures var a := ChangeOwnership(owned, due); Kept(s.gate, GateAfter(s, a), AsksFor(s, a), due)
  {
    var a := ChangeOwnership(owned, due);
    assert Reaction(s, a) == AsksFor(s, a);
    var asked := PassIf(s.gate, AsksFor(s, a), due);
    if AsksFor(s, a).Some? {
      PassKeeps(s.gate, AsksFor(s, a).value, due);
    }
    PassKeeps(asked, Resize, due);
  }

  lemma ReactionToLoss(s: System, admitted: bool, due: bool)
    requires s.stream != []
    ensures Reaction(s, Consume(admitted, due)) == AsksFor(s, Consume(admitted, due))
  {
  }

  lemma ConsumeKeeps(s: System, admitted: bool, due: bool)
    requires s.stream != []
    ensures var a := Consume(admitted, due); Kept(s.gate, GateAfter(s, a), AsksFor(s, a), due)
  {
    var a := Consume(admitted, due);
    ReactionToLoss(s, admitted, due);
    var heard := Heard(s.gate, s.trace.run.c, s.stream[0], admitted, due);
    PassKeeps(s.gate.(reopen := Idle), Resize, due);
    if AsksFor(s, a).Some? {
      PassKeeps(heard, AsksFor(s, a).value, due);
    }
  }

  /** A request in the channel stays until it is taken, and a new one has the reason asked for, or is the due resize. */
  lemma RequestsKeepTheirReason(s: System, a: Action)
    requires s.sent != [] && s.trace.received != [] && Enabled(s, a)
    ensures a.TakeRequest? ==> Next(s, a).phase == CuttingOver(s.gate.slot.value) && Next(s, a).gate.slot.None?
    ensures !a.TakeRequest? ==> Kept(s.gate, Next(s, a).gate, AsksFor(s, a), Due(a))
  {
    match a
    case AskFor(reason, due) => AskKeeps(s, reason, due);
    case Consume(admitted, due) => ConsumeKeeps(s, admitted, due);
    case ChangeOwnership(owned, due) => OwnershipKeeps(s, owned, due);
    case _ =>
  }

  /** A resize that is due is asked for when the buffer is regained, and when the hydration waited for arrives. */
  lemma DueResizeIsAsked(s: System, a: Action)
    requires s.sent != [] && s.trace.received != [] && Enabled(s, a) && Due(a) && !s.gate.closed
    requires (a.ChangeOwnership? && a.owned) ||
             (a.Consume? && s.stream[0].MessageRead? && Rehydrates(s.trace.run.c, s.stream[0].message, a.admitted))
    ensures s.gate.reopen.Idle? || (s.gate.reopen.Hydrating? && a.Consume?) ==>
              Next(s, a).gate.reopen.Requested? && Next(s, a).gate.slot == (if s.gate.slot.Some? then s.gate.slot else Some(Resize))
  {
  }

  /** What a cutover is shown for is what it was asked for. */
  lemma CutoverHasItsReason(s: System)
    requires s.sent != [] && s.trace.received != [] && Enabled(s, TakeRequest)
    requires |s.stream| < STREAM_CAPACITY
    ensures var cutting := Next(s, TakeRequest);
            && Enabled(cutting, EmitCutover)
            && Next(cutting, EmitCutover).stream == s.stream + [CutoverDue(s.gate.slot.value)]
  {
  }

  /** While a connection stays down, failing to open is reported once. */
  lemma OutageIsReportedOnce(s: System)
    requires s.sent != [] && s.trace.received != [] && s.phase.Subscribing? && Enabled(s, FailToOpen(true))
    ensures var down := Next(s, FailToOpen(true));
            && down.stream == (if s.phase.failureReported then s.stream else s.stream + [OpenFailed(true)])
            && Enabled(down, FailToOpen(true)) && Next(down, FailToOpen(true)) == down
  {
  }
}
