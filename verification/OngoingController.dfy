/**
 The controller between the transcript stream and the terminal: it admits messages by sequence number, gives
 terminal work to the surface while the normal buffer is owned, and defers it in a bounded queue while it is not.
 */
module OngoingController {
  import opened Prelude
  import opened LiveReadModel

  const QUEUE_LIMIT: nat := 1000

  // ---- Messages and terminal work ----

  datatype Locator = Locator(eventSequence: nat, rowOrdinal: int)

  predicate After(a: Locator, b: Locator) {
    a.eventSequence > b.eventSequence || (a.eventSequence == b.eventSequence && a.rowOrdinal > b.rowOrdinal)
  }

  datatype RowKind = ToolCallRow | ToolRow(toolCallId: ToolCallId) | OtherRow

  datatype Row = Row(locator: Locator, kind: RowKind, ongoing: bool)

  datatype Hydration = Hydration(tail: seq<Row>, assistants: nat, inFlightTools: seq<ToolStart>, pendingPrompts: nat)

  /** The payloads, grouped by how the controller treats them. */
  datatype Event =
    | Hydrated(hydration: Hydration)
    | RowCommitted(row: Row)
    | Streamed(chunk: string)
    | ToolStarted(tool: ToolStart)
    | ToolAborted(toolCallId: ToolCallId)
    | PromptChanged
    | StatusChanged(repaints: bool)

  datatype Message = Message(sequence: nat, event: Event)

  /** Events the application itself presents; the terminal never sees them. */
  predicate AppOwned(e: Event) {
    e.ToolStarted? || e.ToolAborted? || e.PromptChanged? || e.StatusChanged?
  }

  datatype Reason = SequenceGap | QueueOverflow | Resize | MissingPrompt

  datatype Work = TerminalMessage(message: Message) | TerminalHistory(rows: seq<Row>) | TerminalReset(reason: Reason)

  datatype SurfaceCall = Apply(work: Work) | Render

  datatype Result = Quiet | RequestRehydration(reason: Reason) | LateHistory | AdmissionRejected

  datatype Controller = Controller(
    owned: bool,
    hydrated: bool,
    lastSequence: nat,
    historyEnd: Option<Locator>,
    historyTools: set<Locator>,
    queue: seq<Work>,
    overflowed: bool,
    renderPending: bool,
    tools: seq<PendingTool>)

  const INITIAL := Controller(true, false, 0, None, {}, [], false, false, [])

  /** What one call does: the next state, the calls made on the surface, and the result returned. */
  datatype Effect = Effect(next: Controller, calls: seq<SurfaceCall>, result: Result)

  // ---- Admission ----

  /** A message that does not continue the admitted sequence. */
  predicate Misdelivered(c: Controller, m: Message) {
    if !c.hydrated then m.sequence != 1 || !m.event.Hydrated?
    else m.sequence != c.lastSequence + 1 || m.event.Hydrated?
  }

  function ResetAdmission(c: Controller): (r: Controller) {
    c.(hydrated := false, lastSequence := 0, historyEnd := None, historyTools := {}, renderPending := false, tools := [])
  }

  function ResetForScratchHydration(c: Controller): (r: Controller) {
    ResetAdmission(c.(queue := [], overflowed := false))
  }

  function RequestScratchRehydration(c: Controller): (r: Controller) {
    ResetAdmission(c.(queue := [], overflowed := true))
  }

  function Enqueue(c: Controller, work: Work): (r: Controller) {
    if c.overflowed then c
    else if |c.queue| >= QUEUE_LIMIT then c.(queue := [], overflowed := true)
    else c.(queue := c.queue + [work])
  }

  // ---- Live state ----

  function AddTools(tools: seq<PendingTool>, starts: seq<ToolStart>): (r: seq<PendingTool>)
    decreases |starts|
  {
    if starts == [] then tools else AddTools(AddTool(tools, starts[0]), starts[1..])
  }

  function ApplyState(tools: seq<PendingTool>, e: Event): (r: seq<PendingTool>) {
    match e
    case Hydrated(h) => AddTools(tools, h.inFlightTools)
    case RowCommitted(row) => if row.kind.ToolRow? then RemoveTool(tools, row.kind.toolCallId) else tools
    case ToolStarted(tool) => AddTool(tools, tool)
    case ToolAborted(id) => RemoveTool(tools, id)
    case _ => tools
  }

  /** Whether the live section must be painted again. */
  predicate StateChanged(e: Event) {
    match e
    case Hydrated(h) => h.inFlightTools != [] || h.pendingPrompts > 0
    case RowCommitted(row) => row.kind.ToolRow?
    case Streamed(_) => false
    case StatusChanged(repaints) => repaints
    case _ => true
  }

  // ---- The hand-over from initial history to the first hydration ----

  /** A hydration row the history page has not shown: past its end, or the completion of a tool it showed unfinished. */
  predicate Retained(row: Row, end: Locator, tools: set<Locator>) {
    After(row.locator, end) || (row.locator in tools && row.kind.ToolRow?)
  }

  function RetainedRows(rows: seq<Row>, end: Locator, tools: set<Locator>): (r: seq<Row>) {
    if rows == [] then []
    else (if Retained(rows[0], end, tools) then [rows[0]] else []) + RetainedRows(rows[1..], end, tools)
  }

  /** The message as shown: the first hydration loses the rows the history page has already shown. */
  function Shown(m: Message, end: Option<Locator>, tools: set<Locator>): (r: Message) {
    if m.event.Hydrated? && end.Some? then
      m.(event := Hydrated(m.event.hydration.(tail := RetainedRows(m.event.hydration.tail, end.value, tools))))
    else m
  }

  function HistoryEnd(rows: seq<Row>): (end: Option<Locator>) {
    if rows == [] then None else Some(rows[|rows| - 1].locator)
  }

  function HistoryTools(rows: seq<Row>): (tools: set<Locator>) {
    set i | 0 <= i < |rows| && rows[i].kind.ToolCallRow? :: rows[i].locator
  }

  // ---- The entry points ----

  predicate NoTerminalRows(h: Hydration) {
    h.assistants == 0 && forall i :: 0 <= i < |h.tail| ==> !h.tail[i].ongoing
  }

  function ApplyNow(m: Message, changed: bool): (calls: seq<SurfaceCall>) {
    if AppOwned(m.event) then (if changed then [Render] else [])
    else if m.event.Hydrated? && changed && NoTerminalRows(m.event.hydration) then [Apply(TerminalMessage(m)), Render]
    else [Apply(TerminalMessage(m))]
  }

  /** The bookkeeping for a message that continues the sequence. */
  function Admit(c: Controller, m: Message): (r: Controller) {
    var handedOver := m.event.Hydrated? && c.historyEnd.Some?;
    c.(hydrated := true,
       lastSequence := m.sequence,
       tools := ApplyState(c.tools, m.event),
       historyEnd := if handedOver then None else c.historyEnd,
       historyTools := if handedOver then {} else c.historyTools)
  }

  /** Shows an admitted message now, or queues it while the buffer is not owned. */
  function Present(c: Controller, shown: Message, changed: bool): (e: Effect) {
    if c.owned then Effect(c, ApplyNow(shown, changed), Quiet)
    else
      var queued := if AppOwned(shown.event) then c else Enqueue(c, TerminalMessage(shown));
      Effect(queued.(renderPending := c.renderPending || changed), [], Quiet)
  }

  /** `admitted` is the verdict of the runtime admission, which is not part of this model. */
  function Accept(c: Controller, m: Message, admitted: bool): (e: Effect) {
    if Misdelivered(c, m) then Effect(RequestScratchRehydration(c), [], RequestRehydration(SequenceGap))
    else if !admitted then Effect(c, [], AdmissionRejected)
    else Present(Admit(c, m), Shown(m, c.historyEnd, c.historyTools), StateChanged(m.event))
  }

  function AcceptHistory(c: Controller, rows: seq<Row>): (e: Effect) {
    if c.hydrated then Effect(c, [], LateHistory)
    else
      var next := c.(
        historyEnd := if rows == [] then c.historyEnd else HistoryEnd(rows),
        historyTools := c.historyTools + HistoryTools(rows));
      if c.owned then Effect(next, [Apply(TerminalHistory(rows))], Quiet)
      else Effect(Enqueue(next, TerminalHistory(rows)), [], Quiet)
  }

  function AcceptCutover(c: Controller, reason: Reason): (e: Effect) {
    var reset := if reason == Resize && !c.overflowed then ResetAdmission(c) else ResetForScratchHydration(c);
    if c.owned then Effect(reset, [Apply(TerminalReset(reason))], Quiet)
    else Effect(Enqueue(reset, TerminalReset(reason)), [], Quiet)
  }

  function HandleSubscriptionLoss(c: Controller): (e: Effect) {
    Effect(RequestScratchRehydration(c), [], RequestRehydration(SequenceGap))
  }

  function Applied(works: seq<Work>): (calls: seq<SurfaceCall>)
    ensures |calls| == |works|
    ensures forall i :: 0 <= i < |works| ==> calls[i] == Apply(works[i])
  {
    seq(|works|, i requires 0 <= i < |works| => Apply(works[i]))
  }

  function SetNormalBufferOwned(c: Controller, owned: bool): (e: Effect) {
    if c.owned == owned then Effect(c, [], Quiet)
    else if !owned then Effect(c.(owned := false), [], Quiet)
    else if c.overflowed then
      Effect(ResetForScratchHydration(c.(owned := true)), [], RequestRehydration(QueueOverflow))
    else
      var paint := if c.renderPending || c.queue == [] then [Render] else [];
      Effect(c.(owned := true, queue := [], renderPending := false), Applied(c.queue) + paint, Quiet)
  }

  // ---- Runs of the controller ----

  datatype Input =
    | Deliver(message: Message, admitted: bool)
    | History(rows: seq<Row>)
    | Cutover(reason: Reason)
    | Loss
    | SetOwned(owned: bool)

  function Step(c: Controller, i: Input): (e: Effect) {
    match i
    case Deliver(m, admitted) => Accept(c, m, admitted)
    case History(rows) => AcceptHistory(c, rows)
    case Cutover(reason) => AcceptCutover(c, reason)
    case Loss => HandleSubscriptionLoss(c)
    case SetOwned(owned) => SetNormalBufferOwned(c, owned)
  }

  /** The messages admitted since the last reset of admission, after one more input. */
  function AdmittedBy(ms: seq<Message>, c: Controller, i: Input): (r: seq<Message>) {
    if !Step(c, i).next.hydrated then []
    else if i.Deliver? && !Misdelivered(c, i.message) && i.admitted then ms + [i.message]
    else ms
  }

  function Openings(starts: seq<ToolStart>): (log: seq<LiveEvent>)
    ensures |log| == |starts|
    ensures forall i :: 0 <= i < |log| ==> log[i] == Opened(starts[i])
  {
    seq(|starts|, i requires 0 <= i < |starts| => Opened(starts[i]))
  }

  function ToolEvents(e: Event): (log: seq<LiveEvent>) {
    match e
    case Hydrated(h) => Openings(h.inFlightTools)
    case RowCommitted(row) => if row.kind.ToolRow? then [Closed(row.kind.toolCallId)] else []
    case ToolStarted(tool) => [Opened(tool)]
    case ToolAborted(id) => [Closed(id)]
    case _ => []
  }

  /** What an input says about tools: the admitted tool events, and a clearing at every reset of admission. */
  function ToolNews(c: Controller, i: Input): (log: seq<LiveEvent>) {
    match i
    case Deliver(m, admitted) => if Misdelivered(c, m) then [Cleared] else if admitted then ToolEvents(m.event) else []
    case History(_) => []
    case Cutover(_) => [Cleared]
    case Loss => [Cleared]
    case SetOwned(owned) => if owned && !c.owned && c.overflowed then [Cleared] else []
  }

  /** The reason for which a step asks for rehydration, if it does. */
  function RequestOf(c: Controller, i: Input): (reason: Option<Reason>) {
    var result := Step(c, i).result;
    if result.RequestRehydration? then Some(result.reason) else None
  }

  /** A run: the controller, everything it has asked of the surface and of the stream, and what it has been told. */
  datatype Run = Run(
    c: Controller,
    calls: seq<SurfaceCall>,
    admitted: seq<Message>,
    toolLog: seq<LiveEvent>,
    requests: seq<Reason>)

  const FRESH := Run(INITIAL, [], [], [], [])

  function Advance(r: Run, i: Input): (after: Run) {
    var e := Step(r.c, i);
    var asked := RequestOf(r.c, i);
    Run(e.next, r.calls + e.calls, AdmittedBy(r.admitted, r.c, i), r.toolLog + ToolNews(r.c, i),
        r.requests + if asked.Some? then [asked.value] else [])
  }

  function Play(r: Run, inputs: seq<Input>): (after: Run)
    decreases |inputs|
  {
    if inputs == [] then r else Play(Advance(r, inputs[0]), inputs[1..])
  }

  // ---- What every run keeps ----

  /** The bookkeeping that holds between calls, whatever the stream delivers. */
  ghost predicate Consistent(c: Controller) {
    && |c.queue| <= QUEUE_LIMIT
    && (c.owned || c.overflowed ==> c.queue == [])
    && (c.owned ==> !c.renderPending)
    && (c.hydrated <==> c.lastSequence > 0)
    && (c.historyEnd.None? ==> c.historyTools == {})
    && (!c.hydrated ==> c.tools == [])
    && Distinct(c.tools)
  }

  /** The n-th admitted message has number n, and the first one alone is a hydration. */
  ghost predicate Numbered(ms: seq<Message>) {
    forall i :: 0 <= i < |ms| ==> ms[i].sequence == i + 1 && (ms[i].event.Hydrated? <==> i == 0)
  }

  /** What holds of the controller and of what it has admitted, whatever it is sent. */
  ghost predicate Sound(r: Run) {
    Consistent(r.c) && Numbered(r.admitted) && |r.admitted| == r.c.lastSequence && r.c.tools == Replay(r.toolLog)
  }

  /**
   In every run the queue is bounded, and empty while the buffer is owned or the queue has overflowed, and the messages
   admitted since the last reset are numbers 1 to lastSequence with the hydration first.
   */
  lemma {:induction false} EveryRunIsSound(inputs: seq<Input>)
    ensures Sound(Play(FRESH, inputs))
  {
    SoundFrom(FRESH, inputs);
  }

  lemma {:induction false} SoundFrom(r: Run, inputs: seq<Input>)
    requires Sound(r)
    ensures Sound(Play(r, inputs))
    decreases |inputs|
  {
    if inputs != [] {
      StepIsConsistent(r.c, inputs[0]);
      AdmissionContinues(r.admitted, r.c, inputs[0]);
      NewsReplay(r.toolLog, r.c, inputs[0]);
      SoundFrom(Advance(r, inputs[0]), inputs[1..]);
    }
  }

  lemma {:induction false} AcceptIsConsistent(c: Controller, m: Message, admitted: bool)
    requires Consistent(c)
    ensures Consistent(Accept(c, m, admitted).next)
  {
    ApplyStateKeepsDistinct(c.tools, m.event);
  }

  lemma {:induction false} StepIsConsistent(c: Controller, i: Input)
    requires Consistent(c)
    ensures Consistent(Step(c, i).next)
  {
    if i.Deliver? {
      AcceptIsConsistent(c, i.message, i.admitted);
    } else if i.Cutover? {
      CutoverIsConsistent(c, i.reason);
    }
  }

  lemma CutoverIsConsistent(c: Controller, reason: Reason)
    requires Consistent(c)
    ensures Consistent(Step(c, Cutover(reason)).next)
  {
  }

  lemma {:induction false} AddToolsKeepsDistinct(tools: seq<PendingTool>, starts: seq<ToolStart>)
    requires Distinct(tools)
    ensures Distinct(AddTools(tools, starts))
    decreases |starts|
  {
    if starts != [] {
      AddToolsKeepsDistinct(AddTool(tools, starts[0]), starts[1..]);
    }
  }

  lemma {:induction false} ApplyStateKeepsDistinct(tools: seq<PendingTool>, e: Event)
    requires Distinct(tools)
    ensures Distinct(ApplyState(tools, e))
  {
    if e.Hydrated? {
      AddToolsKeepsDistinct(tools, e.hydration.inFlightTools);
    }
  }

  lemma AdmissionContinues(ms: seq<Message>, c: Controller, i: Input)
    requires Consistent(c) && Numbered(ms) && |ms| == c.lastSequence
    ensures Numbered(AdmittedBy(ms, c, i)) && |AdmittedBy(ms, c, i)| == Step(c, i).next.lastSequence
  {
  }

  // ---- Asking for rehydration ----

  /** The message is number one more than were admitted since the last reset, and a hydration exactly if it is the first. */
  predicate IsNext(admitted: seq<Message>, m: Message) {
    m.sequence == |admitted| + 1 && (m.event.Hydrated? <==> admitted == [])
  }

  /**
   In every run a step asks for rehydration exactly when the subscription is lost, a message that is not the next one
   arrives, or the buffer is regained after the queue has overflowed; at once, once, and for that reason.
   */
  lemma RequestsAreMadeExactly(inputs: seq<Input>, i: Input)
    ensures var r := Play(FRESH, inputs);
            Advance(r, i).requests == r.requests +
              match i
              case Loss => [SequenceGap]
              case Deliver(m, _) => if IsNext(r.admitted, m) then [] else [SequenceGap]
              case SetOwned(owned) => if owned && !r.c.owned && r.c.overflowed then [QueueOverflow] else []
              case _ => []
  {
    EveryRunIsSound(inputs);
    assert Play(FRESH, inputs).requests + [] == Play(FRESH, inputs).requests;
  }

  // ---- Painting the live section ----

  /** What an admitted message may have changed in the live section. */
  predicate ShowsInLive(e: Event) {
    || e.ToolStarted? || e.ToolAborted? || e.PromptChanged? || (e.StatusChanged? && e.repaints)
    || (e.RowCommitted? && e.row.kind.ToolRow?)
    || (e.Hydrated? && (e.hydration.inFlightTools != [] || e.hydration.pendingPrompts > 0))
  }

  /** Something in the live section was changed since the surface was last called; a reset takes it all away. */
  function Unpainted(before: bool, c: Controller, i: Input): bool {
    var e := Step(c, i);
    if e.calls != [] || !e.next.hydrated then false
    else before || (i.Deliver? && i.admitted && ShowsInLive(i.message.event))
  }

  function UnpaintedAfter(before: bool, c: Controller, inputs: seq<Input>): bool
    decreases |inputs|
  {
    if inputs == [] then before else UnpaintedAfter(Unpainted(before, c, inputs[0]), Step(c, inputs[0]).next, inputs[1..])
  }

  lemma {:induction false} PaintIsPending(before: bool, r: Run, inputs: seq<Input>)
    requires Consistent(r.c) && (before ==> !r.c.owned && (r.c.renderPending || r.c.overflowed))
    ensures var c := Play(r, inputs).c;
            UnpaintedAfter(before, r.c, inputs) ==> !c.owned && (c.renderPending || c.overflowed)
    decreases |inputs|
  {
    if inputs != [] {
      StepIsConsistent(r.c, inputs[0]);
      StepLeavesPaint(before, r.c, inputs[0]);
      PaintIsPending(Unpainted(before, r.c, inputs[0]), Advance(r, inputs[0]), inputs[1..]);
    }
  }

  lemma StepLeavesPaint(before: bool, c: Controller, i: Input)
    requires Consistent(c) && (before ==> !c.owned && (c.renderPending || c.overflowed))
    ensures var n := Step(c, i).next; Unpainted(before, c, i) ==> !n.owned && (n.renderPending || n.overflowed)
  {
  }

  /** In every run, while the buffer is owned nothing that was changed in the live section is left unpainted. */
  lemma OwnedIsPainted(inputs: seq<Input>)
    ensures Play(FRESH, inputs).c.owned ==> !UnpaintedAfter(false, INITIAL, inputs)
  {
    PaintIsPending(false, FRESH, inputs);
  }

  /** A message came while the buffer was given up that changed the live section; resets and regaining end that. */
  function Dirty(before: bool, c: Controller, i: Input): bool {
    match i
    case SetOwned(owned) => before && owned == c.owned
    case Deliver(m, admitted) =>
      if Misdelivered(c, m) then false else before || (admitted && !c.owned && ShowsInLive(m.event))
    case History(_) => before
    case _ => false
  }

  function DirtyAfter(before: bool, c: Controller, inputs: seq<Input>): bool
    decreases |inputs|
  {
    if inputs == [] then before else DirtyAfter(Dirty(before, c, inputs[0]), Step(c, inputs[0]).next, inputs[1..])
  }

  lemma {:induction false} DirtyIsPending(r: Run, inputs: seq<Input>)
    requires Consistent(r.c)
    ensures Play(r, inputs).c.renderPending == DirtyAfter(r.c.renderPending, r.c, inputs)
    decreases |inputs|
  {
    if inputs != [] {
      StepIsConsistent(r.c, inputs[0]);
      StepPends(r.c, inputs[0]);
      DirtyIsPending(Advance(r, inputs[0]), inputs[1..]);
    }
  }

  lemma StepPends(c: Controller, i: Input)
    requires Consistent(c)
    ensures Step(c, i).next.renderPending == Dirty(c.renderPending, c, i)
  {
  }

  /**
   After any run, regaining the buffer gives the queued works in order and then paints, if anything changed in the live
   section meanwhile or nothing was queued; after an overflow it asks for rehydration instead.
   */
  lemma RegainingPaintsLast(inputs: seq<Input>)
    ensures var r := Play(FRESH, inputs);
            var e := Step(r.c, SetOwned(true));
            !r.c.owned ==>
              e.calls == if r.c.overflowed then []
                         else Applied(r.c.queue) + if DirtyAfter(false, INITIAL, inputs) || r.c.queue == [] then [Render] else []
  {
    EveryRunIsSound(inputs);
    DirtyIsPending(FRESH, inputs);
  }

  /** A message that is next in order is shown at once while the buffer is owned, followed by a painting where it adds none. */
  lemma OwnedMessageIsShown(inputs: seq<Input>, m: Message)
    requires var r := Play(FRESH, inputs); r.c.owned && IsNext(r.admitted, m)
    ensures var c := Play(FRESH, inputs).c;
            var shown := Shown(m, c.historyEnd, c.historyTools);
            Step(c, Deliver(m, true)).calls ==
              if m.event.ToolStarted? || m.event.ToolAborted? || m.event.PromptChanged? || m.event.StatusChanged? then
                (if ShowsInLive(m.event) then [Render] else [])
              else if m.event.Hydrated? && ShowsInLive(m.event) && shown.event.hydration.assistants == 0
                      && (forall k :: 0 <= k < |shown.event.hydration.tail| ==> !shown.event.hydration.tail[k].ongoing)
              then [Apply(TerminalMessage(shown)), Render]
              else [Apply(TerminalMessage(shown))]
  {
    EveryRunIsSound(inputs);
  }

  /** A message the runtime admission rejects is reported, and changes nothing. */
  lemma RejectionChangesNothing(inputs: seq<Input>, m: Message)
    requires IsNext(Play(FRESH, inputs).admitted, m)
    ensures var c := Play(FRESH, inputs).c; Step(c, Deliver(m, false)) == Effect(c, [], AdmissionRejected)
  {
    EveryRunIsSound(inputs);
  }

  /** History that comes after the hydration is reported, and changes nothing. */
  lemma LateHistoryChangesNothing(inputs: seq<Input>, rows: seq<Row>)
    requires Play(FRESH, inputs).admitted != []
    ensures var c := Play(FRESH, inputs).c; Step(c, History(rows)) == Effect(c, [], LateHistory)
  {
    EveryRunIsSound(inputs);
  }

  predicate KeepsAway(i: Input) {
    !i.Cutover? && (i.SetOwned? ==> !i.owned)
  }

  lemma {:induction false} OverflowStays(r: Run, inputs: seq<Input>)
    requires Consistent(r.c) && !r.c.owned && r.c.overflowed && forall k :: 0 <= k < |inputs| ==> KeepsAway(inputs[k])
    ensures var c := Play(r, inputs).c; !c.owned && c.overflowed && c.queue == []
    decreases |inputs|
  {
    if inputs != [] {
      assert KeepsAway(inputs[0]);
      StepIsConsistent(r.c, inputs[0]);
      OverflowStays(Advance(r, inputs[0]), inputs[1..]);
    }
  }

  /**
   A subscription that is lost, or a message that is not the next one, while the buffer is given up: whatever comes until
   the cutover, regaining the buffer shows nothing of it and asks for rehydration.
   */
  lemma LossWhileAwayAsksOnReturn(inputs: seq<Input>, i: Input, later: seq<Input>)
    requires var r := Play(FRESH, inputs);
             !r.c.owned && (i.Loss? || (i.Deliver? && !IsNext(r.admitted, i.message)))
    requires forall k :: 0 <= k < |later| ==> KeepsAway(later[k])
    ensures var r := Play(Advance(Play(FRESH, inputs), i), later);
            Step(r.c, SetOwned(true)).calls == [] && RequestOf(r.c, SetOwned(true)) == Some(QueueOverflow)
  {
    var r := Play(FRESH, inputs);
    EveryRunIsSound(inputs);
    StepIsConsistent(r.c, i);
    LossOverflows(r, i);
    OverflowStays(Advance(r, i), later);
    OverflowAsks(Play(Advance(r, i), later).c);
  }

  lemma LossOverflows(r: Run, i: Input)
    requires Sound(r) && !r.c.owned && (i.Loss? || (i.Deliver? && !IsNext(r.admitted, i.message)))
    ensures !Step(r.c, i).next.owned && Step(r.c, i).next.overflowed
  {
  }

  lemma OverflowAsks(c: Controller)
    requires !c.owned && c.overflowed
    ensures Step(c, SetOwned(true)).calls == [] && RequestOf(c, SetOwned(true)) == Some(QueueOverflow)
  {
  }

  // ---- The live tools of a run ----

  /** After any run the live tools are exactly those started since the last reset and not closed since, in start order. */
  lemma {:induction false} LiveToolsReflectRun(inputs: seq<Input>) returns (at: seq<nat>)
    ensures var r := Play(FRESH, inputs); Reflects(r.c.tools, r.toolLog, at)
  {
    EveryRunIsSound(inputs);
    at := ListReflectsLog(Play(FRESH, inputs).toolLog);
  }

  /** What a step makes of the live tools. */
  lemma StepTools(c: Controller, i: Input)
    ensures Step(c, i).next.tools ==
            if i.Deliver? && !Misdelivered(c, i.message) && i.admitted then ApplyState(c.tools, i.message.event)
            else if ToolNews(c, i) == [] then c.tools
            else []
    ensures !(i.Deliver? && !Misdelivered(c, i.message) && i.admitted) ==> ToolNews(c, i) == [] || ToolNews(c, i) == [Cleared]
  {
  }

  lemma {:induction false} NewsReplay(log: seq<LiveEvent>, c: Controller, i: Input)
    requires c.tools == Replay(log)
    ensures Step(c, i).next.tools == Replay(log + ToolNews(c, i))
  {
    StepTools(c, i);
    if i.Deliver? && !Misdelivered(c, i.message) && i.admitted {
      ToolEventsReplay(log, i.message.event);
    } else if ToolNews(c, i) == [] {
      assert log + [] == log;
    } else {
      ReplayOne(log, Cleared);
    }
  }

  lemma {:induction false} ReplayOne(log: seq<LiveEvent>, e: LiveEvent)
    ensures e.Opened? ==> Replay(log + [e]) == AddTool(Replay(log), e.tool)
    ensures e.Closed? ==> Replay(log + [e]) == RemoveTool(Replay(log), e.id)
    ensures e.Cleared? ==> Replay(log + [e]) == []
  {
    assert (log + [e])[..|log|] == log;
  }

  lemma OpeningsFront(log: seq<LiveEvent>, starts: seq<ToolStart>)
    requires starts != []
    ensures log + Openings(starts) == log + [Opened(starts[0])] + Openings(starts[1..])
  {
  }

  lemma {:induction false} ReplayOpenings(log: seq<LiveEvent>, starts: seq<ToolStart>)
    ensures Replay(log + Openings(starts)) == AddTools(Replay(log), starts)
    decreases |starts|
  {
    if starts == [] {
      assert log + Openings(starts) == log;
    } else {
      OpeningsFront(log, starts);
      ReplayOne(log, Opened(starts[0]));
      ReplayOpenings(log + [Opened(starts[0])], starts[1..]);
    }
  }

  lemma {:induction false} ToolEventsReplay(log: seq<LiveEvent>, e: Event)
    ensures Replay(log + ToolEvents(e)) == ApplyState(Replay(log), e)
  {
    match e
    case Hydrated(h) => ReplayOpenings(log, h.inFlightTools);
    case RowCommitted(row) =>
      if row.kind.ToolRow? {
        ReplayOne(log, Closed(row.kind.toolCallId));
      } else {
        assert log + [] == log;
      }
    case ToolStarted(tool) => ReplayOne(log, Opened(tool));
    case ToolAborted(id) => ReplayOne(log, Closed(id));
    case _ => assert log + [] == log;
  }

  // ---- The hand-over loses and repeats nothing ----

  ghost predicate InLocatorOrder(rows: seq<Row>) {
    forall i, j :: 0 <= i < j < |rows| ==> After(rows[j].locator, rows[i].locator)
  }

  /** The completions of tools that were still unfinished on the history page. */
  function Finished(rows: seq<Row>, tools: set<Locator>): (r: seq<Row>) {
    if rows == [] then []
    else (if rows[0].locator in tools && rows[0].kind.ToolRow? then [rows[0]] else []) + Finished(rows[1..], tools)
  }

  /** The row comes after all rows of the history page. */
  predicate PastPage(page: seq<Row>, row: Row) {
    page == [] || After(row.locator, page[|page| - 1].locator)
  }

  /** How many rows at the front of a hydration do not come after the page. */
  function UpToPage(page: seq<Row>, tail: seq<Row>): (k: nat)
    ensures k <= |tail|
  {
    if tail == [] || PastPage(page, tail[0]) then 0 else 1 + UpToPage(page, tail[1..])
  }

  lemma {:induction false} UpToPageSplits(page: seq<Row>, tail: seq<Row>)
    requires InLocatorOrder(tail)
    ensures var k := UpToPage(page, tail);
            && (forall i :: 0 <= i < k ==> !PastPage(page, tail[i]))
            && (forall i :: k <= i < |tail| ==> PastPage(page, tail[i]))
    decreases |tail|
  {
    if tail != [] && !PastPage(page, tail[0]) {
      UpToPageSplits(page, tail[1..]);
      var k := UpToPage(page, tail[1..]);
      forall i | 0 <= i < k + 1 ensures !PastPage(page, tail[i]) {
        assert i > 0 ==> tail[i] == tail[1..][i - 1];
      }
      forall i | k + 1 <= i < |tail| ensures PastPage(page, tail[i]) {
        assert tail[i] == tail[1..][i - 1];
      }
    }
  }

  lemma {:induction false} RetainedPastEnd(rows: seq<Row>, end: Locator, tools: set<Locator>)
    requires forall i :: 0 <= i < |rows| ==> After(rows[i].locator, end)
    ensures RetainedRows(rows, end, tools) == rows
    decreases |rows|
  {
    if rows != [] {
      RetainedPastEnd(rows[1..], end, tools);
    }
  }

  lemma FinishedFront(tail: seq<Row>, k: nat, tools: set<Locator>)
    requires k < |tail|
    ensures Finished(tail[..k + 1], tools) + tail[k + 1..] ==
            Finished([tail[0]], tools) + (Finished(tail[1..][..k], tools) + tail[1..][k..])
  {
    assert tail[..k + 1][1..] == tail[1..][..k] && tail[k + 1..] == tail[1..][k..] && tail[..k + 1][0] == tail[0];
    assert Finished([tail[0]], tools) + Finished(tail[1..][..k], tools) == Finished(tail[..k + 1], tools);
  }

  lemma {:induction false} RetainedIsFinishedThenRest(page: seq<Row>, tail: seq<Row>, tools: set<Locator>)
    requires page != [] && InLocatorOrder(tail)
    ensures var k := UpToPage(page, tail);
            RetainedRows(tail, page[|page| - 1].locator, tools) == Finished(tail[..k], tools) + tail[k..]
    decreases |tail|
  {
    var end := page[|page| - 1].locator;
    if tail == [] {
    } else if PastPage(page, tail[0]) {
      UpToPageSplits(page, tail);
      RetainedPastEnd(tail, end, tools);
      assert tail[..0] == [] && tail[0..] == tail && Finished([], tools) + tail == tail;
    } else {
      var rest := tail[1..];
      var k := UpToPage(page, rest);
      RetainedIsFinishedThenRest(page, rest, tools);
      FinishedFront(tail, k, tools);
      assert RetainedRows(tail, end, tools) == Finished([tail[0]], tools) + RetainedRows(rest, end, tools);
    }
  }

  lemma {:induction false} RetainedAreRows(rows: seq<Row>, end: Locator, tools: set<Locator>, bound: Locator)
    requires InLocatorOrder(rows) && forall i :: 0 <= i < |rows| ==> After(rows[i].locator, bound)
    ensures var kept := RetainedRows(rows, end, tools);
            && InLocatorOrder(kept)
            && (forall i :: 0 <= i < |kept| ==> After(kept[i].locator, bound) && Retained(kept[i], end, tools))
    decreases |rows|
  {
    if rows != [] {
      RetainedAreRows(rows[1..], end, tools, bound);
      forall i | 0 <= i < |rows[1..]| ensures After(rows[1..][i].locator, rows[0].locator) {
        assert rows[1..][i] == rows[i + 1];
      }
      RetainedAreRows(rows[1..], end, tools, rows[0].locator);
    }
  }

  lemma LocatorsDiffer(page: seq<Row>, i: nat, j: nat)
    requires InLocatorOrder(page) && i < |page| && j < |page|
    ensures page[i].locator == page[j].locator ==> i == j
  {
  }

  /** A row of the page that is shown again is the completion of a tool the page showed unfinished. */
  lemma ShownAgainIsCompletion(page: seq<Row>, row: Row, j: nat)
    requires InLocatorOrder(page) && j < |page| && row.locator == page[j].locator
    requires Retained(row, page[|page| - 1].locator, HistoryTools(page))
    ensures page[j].kind.ToolCallRow? && row.kind.ToolRow?
  {
    assert j < |page| - 1 ==> After(page[|page| - 1].locator, page[j].locator);
    assert row.locator in HistoryTools(page);
    var i :| 0 <= i < |page| && page[i].kind.ToolCallRow? && page[i].locator == row.locator;
    LocatorsDiffer(page, i, j);
  }

  lemma InOrderOf(rows: seq<Row>, end: Locator, tools: set<Locator>)
    requires InLocatorOrder(rows)
    ensures var kept := RetainedRows(rows, end, tools);
            InLocatorOrder(kept) && (forall i :: 0 <= i < |kept| ==> Retained(kept[i], end, tools))
  {
    if rows != [] {
      var bound := Locator(rows[0].locator.eventSequence, rows[0].locator.rowOrdinal - 1);
      forall i | 0 <= i < |rows| ensures After(rows[i].locator, bound) {
        assert i > 0 ==> After(rows[i].locator, rows[0].locator);
      }
      RetainedAreRows(rows, end, tools, bound);
    }
  }

  /**
   A history page followed by the first hydration, wherever the hydration begins: what is shown of it is, in order, the
   completions of the tools the page showed unfinished and then every row past the page. A row of the page comes again
   only as such a completion.
   */
  lemma {:induction false} HandoverShowsEachRowOnce(page: seq<Row>, m: Message)
    requires m.event.Hydrated? && InLocatorOrder(page) && InLocatorOrder(m.event.hydration.tail)
    ensures var tail := m.event.hydration.tail;
            var k := UpToPage(page, tail);
            var shown := Shown(m, HistoryEnd(page), HistoryTools(page)).event.hydration.tail;
            && (forall i :: 0 <= i < |tail| ==> (k <= i <==> PastPage(page, tail[i])))
            && shown == Finished(tail[..k], HistoryTools(page)) + tail[k..]
            && InLocatorOrder(shown)
            && (forall i, j :: 0 <= i < |shown| && 0 <= j < |page| && shown[i].locator == page[j].locator ==>
                  page[j].kind.ToolCallRow? && shown[i].kind.ToolRow?)
  {
    var tail := m.event.hydration.tail;
    UpToPageSplits(page, tail);
    if page == [] {
      assert tail[..0] == [] && tail[0..] == tail && [] + tail == tail;
    } else {
      var end, tools := page[|page| - 1].locator, HistoryTools(page);
      RetainedIsFinishedThenRest(page, tail, tools);
      InOrderOf(tail, end, tools);
      var shown := RetainedRows(tail, end, tools);
      forall i, j | 0 <= i < |shown| && 0 <= j < |page| && shown[i].locator == page[j].locator
        ensures page[j].kind.ToolCallRow? && shown[i].kind.ToolRow?
      {
        ShownAgainIsCompletion(page, shown[i], j);
      }
    }
  }

  // ---- The mutable controller ----

  lemma RetainedSplits(kept: seq<Row>, rows: seq<Row>, i: nat, end: Locator, tools: set<Locator>)
    requires i < |rows|
    ensures kept + RetainedRows(rows[i..], end, tools) ==
            (if Retained(rows[i], end, tools) then kept + [rows[i]] else kept) + RetainedRows(rows[i + 1..], end, tools)
  {
    assert rows[i..][1..] == rows[i + 1..];
  }

  method KeepUnshown(rows: seq<Row>, end: Locator, tools: set<Locator>) returns (retained: seq<Row>)
    ensures retained == RetainedRows(rows, end, tools)
  {
    retained := [];
    var i := 0;
    assert rows[0..] == rows;
    while i < |rows|
      invariant i <= |rows|
      invariant retained + RetainedRows(rows[i..], end, tools) == RetainedRows(rows, end, tools)
    {
      RetainedSplits(retained, rows, i, end, tools);
      if Retained(rows[i], end, tools) {
        retained := retained + [rows[i]];
      }
      i := i + 1;
    }
  }

  class TranscriptController {
    var normalOwned: bool
    var hydrated: bool
    var lastSequence: nat
    var initialHistoryEnd: Option<Locator>
    var initialHistoryTools: set<Locator>
    var queue: seq<Work>
    var queueOverflowed: bool
    var renderPending: bool
    const live: ReadModel
    /** The calls made on the terminal surface, which never fails in this model. */
    var surface: seq<SurfaceCall>

    ghost predicate Valid()
      reads this, live
    {
      live.Valid()
    }

    ghost function State(): (c: Controller)
      reads this, live
    {
      Controller(normalOwned, hydrated, lastSequence, initialHistoryEnd, initialHistoryTools, queue,
                 queueOverflowed, renderPending, live.pendingTools)
    }

    /** The call did what the effect says: new state, surface calls, result. */
    twostate predicate Did(e: Effect, result: Result)
      reads this, live
    {
      Valid() && State() == e.next && surface == old(surface) + e.calls && result == e.result
    }

    constructor ()
      ensures Valid() && State() == INITIAL && surface == [] && fresh(live)
    {
      normalOwned, hydrated, lastSequence := true, false, 0;
      initialHistoryEnd, initialHistoryTools := None, {};
      queue, queueOverflowed, renderPending := [], false, false;
      surface := [];
      live := new ReadModel();
    }

    method ResetAdmissionState()
      requires Valid()
      modifies this, live
      ensures Valid() && State() == ResetAdmission(old(State())) && surface == old(surface)
    {
      hydrated := false;
      initialHistoryEnd := None;
      initialHistoryTools := {};
      lastSequence := 0;
      renderPending := false;
      live.Reset();
    }

    method EnqueueWork(work: Work)
      modifies this`queue, this`queueOverflowed
      ensures State() == Enqueue(old(State()), work)
    {
      if queueOverflowed {
        return;
      }
      if |queue| >= QUEUE_LIMIT {
        queue := [];
        queueOverflowed := true;
        return;
      }
      queue := queue + [work];
    }

    method ApplyTerminalWork(work: Work)
      modifies this`surface
      ensures surface == old(surface) + [Apply(work)]
    {
      surface := surface + [Apply(work)];
    }

    /** Folds a message into the live tools; reports whether the live section changed. */
    method ApplyMessageState(m: Message) returns (changed: bool)
      requires Valid()
      modifies live
      ensures Valid() && live.pendingTools == ApplyState(old(live.pendingTools), m.event)
      ensures changed == StateChanged(m.event)
    {
      match m.event
      case Hydrated(h) =>
        var tools := h.inFlightTools;
        ghost var goal := ApplyState(live.pendingTools, m.event);
        while tools != []
          invariant live.Valid()
          invariant AddTools(live.pendingTools, tools) == goal
          decreases |tools|
        {
          live.AddPendingTool(tools[0]);
          tools := tools[1..];
        }
        changed := h.inFlightTools != [] || h.pendingPrompts > 0;
      case RowCommitted(row) =>
        changed := row.kind.ToolRow?;
        if changed {
          live.RemovePendingTool(row.kind.toolCallId);
        }
      case ToolStarted(tool) => live.AddPendingTool(tool); changed := true;
      case ToolAborted(id) => live.RemovePendingTool(id); changed := true;
      case Streamed(_) => changed := false;
      case PromptChanged => changed := true;
      case StatusChanged(repaints) => changed := repaints;
    }

    /** The rows a first hydration still has to show after the history page. */
    method InitialHydrationAfterHistory(m: Message) returns (shown: Message)
      modifies this`initialHistoryEnd, this`initialHistoryTools
      ensures shown == Shown(m, old(initialHistoryEnd), old(initialHistoryTools))
      ensures m.event.Hydrated? && old(initialHistoryEnd).Some? ==> initialHistoryEnd == None && initialHistoryTools == {}
      ensures !(m.event.Hydrated? && old(initialHistoryEnd).Some?) ==>
                initialHistoryEnd == old(initialHistoryEnd) && initialHistoryTools == old(initialHistoryTools)
    {
      if !m.event.Hydrated? || initialHistoryEnd.None? {
        return m;
      }
      var end := initialHistoryEnd.value;
      initialHistoryEnd := None;
      var retained := KeepUnshown(m.event.hydration.tail, end, initialHistoryTools);
      initialHistoryTools := {};
      shown := m.(event := Hydrated(m.event.hydration.(tail := retained)));
    }

    method ClassifyDelivery(m: Message) returns (misdelivered: bool)
      ensures misdelivered == Misdelivered(State(), m)
    {
      if !hydrated {
        return m.sequence != 1 || !m.event.Hydrated?;
      }
      if m.sequence != lastSequence + 1 {
        return true;
      }
      misdelivered := m.event.Hydrated?;
    }

    method AcceptMessage(m: Message, admitted: bool) returns (result: Result)
      requires Valid()
      modifies this, live
      ensures Did(Accept(old(State()), m, admitted), result)
    {
      var misdelivered := ClassifyDelivery(m);
      if misdelivered {
        queue := [];
        queueOverflowed := true;
        ResetAdmissionState();
        return RequestRehydration(SequenceGap);
      }
      if !admitted {
        return AdmissionRejected;
      }
      var changed, shown := AdmitMessage(m);
      PresentMessage(shown, changed);
      result := Quiet;
    }

    method AdmitMessage(m: Message) returns (changed: bool, shown: Message)
      requires Valid()
      modifies this, live
      ensures Valid() && State() == Admit(old(State()), m) && surface == old(surface)
      ensures changed == StateChanged(m.event)
      ensures shown == Shown(m, old(initialHistoryEnd), old(initialHistoryTools))
    {
      hydrated := true;
      lastSequence := m.sequence;
      changed := ApplyMessageState(m);
      shown := InitialHydrationAfterHistory(m);
    }

    method PresentMessage(shown: Message, changed: bool)
      requires Valid()
      modifies this
      ensures Did(Present(old(State()), shown, changed), Quiet)
    {
      if !normalOwned {
        if !AppOwned(shown.event) {
          EnqueueWork(TerminalMessage(shown));
        }
        renderPending := renderPending || changed;
        return;
      }
      ApplyMessageNow(shown, changed);
    }

    method ApplyMessageNow(m: Message, changed: bool)
      modifies this`surface
      ensures surface == old(surface) + ApplyNow(m, changed)
    {
      if AppOwned(m.event) {
        if changed {
          surface := surface + [Render];
        }
        return;
      }
      ApplyTerminalWork(TerminalMessage(m));
      if m.event.Hydrated? && changed && NoTerminalRows(m.event.hydration) {
        surface := surface + [Render];
      }
    }

    method AcceptHistoryPage(rows: seq<Row>) returns (result: Result)
      requires Valid()
      modifies this
      ensures Did(AcceptHistory(old(State()), rows), result)
    {
      if hydrated {
        return LateHistory;
      }
      if |rows| > 0 {
        initialHistoryEnd := Some(rows[|rows| - 1].locator);
      }
      initialHistoryTools := initialHistoryTools + HistoryTools(rows);
      if !normalOwned {
        EnqueueWork(TerminalHistory(rows));
      } else {
        ApplyTerminalWork(TerminalHistory(rows));
      }
      result := Quiet;
    }

    method AcceptCutoverEvent(reason: Reason) returns (result: Result)
      requires Valid()
      modifies this, live
      ensures Did(AcceptCutover(old(State()), reason), result)
    {
      if !(reason == Resize && !queueOverflowed) {
        queue := [];
        queueOverflowed := false;
      }
      ResetAdmissionState();
      if !normalOwned {
        EnqueueWork(TerminalReset(reason));
      } else {
        ApplyTerminalWork(TerminalReset(reason));
      }
      result := Quiet;
    }

    method HandleLoss() returns (result: Result)
      requires Valid()
      modifies this, live
      ensures Did(HandleSubscriptionLoss(old(State())), result)
    {
      queue := [];
      queueOverflowed := true;
      ResetAdmissionState();
      result := RequestRehydration(SequenceGap);
    }

    method SetOwnership(owned: bool) returns (result: Result)
      requires Valid()
      modifies this, live
      ensures Did(SetNormalBufferOwned(old(State()), owned), result)
    {
      if normalOwned == owned {
        return Quiet;
      }
      normalOwned := owned;
      if !owned {
        return Quiet;
      }
      if queueOverflowed {
        queue := [];
        queueOverflowed := false;
        ResetAdmissionState();
        return RequestRehydration(QueueOverflow);
      }
      if |queue| == 0 {
        renderPending := true;
      }
      DrainQueued();
      result := Quiet;
    }

    method DrainQueued()
      modifies this`queue, this`renderPending, this`surface
      ensures queue == [] && !renderPending
      ensures surface == old(surface) + Applied(old(queue)) + (if old(renderPending) then [Render] else [])
    {
      var queued := queue;
      queue := [];
      var needsRender := renderPending;
      renderPending := false;
      var i := 0;
      while i < |queued|
        invariant i <= |queued| && queue == [] && !renderPending
        invariant surface == old(surface) + Applied(queued[..i])
      {
        assert Applied(queued[..i + 1]) == Applied(queued[..i]) + [Apply(queued[i])];
        ApplyTerminalWork(queued[i]);
        i := i + 1;
      }
      assert queued[..i] == queued;
      if needsRender {
        surface := surface + [Render];
      }
    }
  }
}
