/**
 What the terminal is shown over a whole run: the works given to the surface, split at every reset, show one
 subscription each, from its hydration on and without a gap.
 */
module TranscriptDelivery {
  import opened Prelude
  import opened OngoingController

  // ---- The stream as the controller receives it ----

  /** The messages received so far from each subscription, in order; the last one is open until it is lost. */
  datatype Trace = Trace(run: Run, received: seq<seq<Message>>, lost: bool, page: Option<seq<Row>>, opening: bool)

  const START := Trace(FRESH, [[]], false, None, true)

  function Last<T>(s: seq<T>): (x: T)
    requires s != []
  {
    s[|s| - 1]
  }

  /**
   The grammar of the stream: at most one history page, before anything else; each subscription numbers its messages
   1, 2, ... with the hydration at 1 only; after a loss nothing arrives before the next cutover.
   */
  ghost predicate Lawful(t: Trace, i: Input)
    requires t.received != []
  {
    match i
    case Deliver(m, _) =>
      !t.lost && m.sequence == |Last(t.received)| + 1 && (m.event.Hydrated? <==> m.sequence == 1)
    case History(_) => t.opening
    case Loss => !t.lost
    case Cutover(_) => true
    case SetOwned(_) => true
  }

  function Feed(t: Trace, i: Input): (r: Trace)
    requires t.received != []
    ensures r.received != []
  {
    var next := t.(run := Advance(t.run, i));
    match i
    case Deliver(m, _) =>
      next.(received := t.received[..|t.received| - 1] + [Last(t.received) + [m]], opening := false)
    case History(rows) => next.(page := Some(rows), opening := false)
    case Cutover(_) => next.(received := t.received + [[]], lost := false, opening := false)
    case Loss => next.(lost := true, opening := false)
    case SetOwned(_) => next
  }

  function Follow(t: Trace, inputs: seq<Input>): (r: Trace)
    requires t.received != []
    ensures r.received != []
    decreases |inputs|
  {
    if inputs == [] then t else Follow(Feed(t, inputs[0]), inputs[1..])
  }

  ghost predicate LawfulRun(t: Trace, inputs: seq<Input>)
    requires t.received != []
    decreases |inputs|
  {
    inputs != [] ==> Lawful(t, inputs[0]) && LawfulRun(Feed(t, inputs[0]), inputs[1..])
  }

  // ---- What the surface is given ----

  function Works(calls: seq<SurfaceCall>): (works: seq<Work>) {
    if calls == [] then []
    else Works(calls[..|calls| - 1]) + (if Last(calls).Apply? then [Last(calls).work] else [])
  }

  /** The messages between resets. */
  function Blocks(works: seq<Work>): (blocks: seq<seq<Message>>)
    ensures blocks != []
  {
    if works == [] then [[]]
    else
      var before := Blocks(works[..|works| - 1]);
      match Last(works)
      case TerminalMessage(m) => before[..|before| - 1] + [Last(before) + [m]]
      case TerminalHistory(_) => before
      case TerminalReset(_) => before + [[]]
  }

  /** The terminal's share of a subscription; the hydration of the first one continues the history page. */
  function Terminal(ms: seq<Message>, page: Option<seq<Row>>): (r: seq<Message>) {
    if ms == [] then []
    else
      Terminal(ms[..|ms| - 1], page) +
      (if AppOwned(Last(ms).event) then []
       else [if page.Some? then Shown(Last(ms), HistoryEnd(page.value), HistoryTools(page.value)) else Last(ms)])
  }

  /** Which subscription a block shows, and how many of its messages. */
  datatype Mark = Mark(sub: nat, count: nat)

  ghost predicate BlockShows(block: seq<Message>, mark: Mark, received: seq<seq<Message>>, page: Option<seq<Row>>) {
    && mark.sub < |received|
    && mark.count <= |received[mark.sub]|
    && block == Terminal(received[mark.sub][..mark.count], if mark.sub == 0 then page else None)
  }

  ghost predicate ShowsInOrder(works: seq<Work>, marks: seq<Mark>, received: seq<seq<Message>>, page: Option<seq<Row>>) {
    && |marks| == |Blocks(works)|
    && (forall i :: 0 <= i < |marks| ==> BlockShows(Blocks(works)[i], marks[i], received, page))
    && (forall i, j :: 0 <= i < j < |marks| ==> marks[i].sub < marks[j].sub)
  }

  /** Every block is exactly messages 1 to k of one subscription, later blocks showing later subscriptions. */
  ghost predicate NoSilentGap(t: Trace) {
    exists marks :: ShowsInOrder(Works(t.run.calls), marks, t.received, t.page)
  }

  // ---- When a reset is lost ----

  /** A resize cutover that meets an exactly full queue overflows it, and its own reset is dropped with the queue. */
  predicate DropsReset(c: Controller, reason: Reason) {
    !c.owned && reason == Resize && !c.overflowed && |c.queue| >= QUEUE_LIMIT
  }

  /** The cutover keeps its reset, or the terminal is showing nothing that would need it. */
  predicate Safe(t: Trace, i: Input) {
    i.Cutover? && DropsReset(t.run.c, i.reason) ==> Last(Blocks(Works(t.run.calls))) == []
  }

  ghost predicate SafeRun(t: Trace, inputs: seq<Input>)
    requires t.received != []
    decreases |inputs|
  {
    inputs != [] ==> Safe(t, inputs[0]) && SafeRun(Feed(t, inputs[0]), inputs[1..])
  }

  // ---- The invariant ----

  /** `a` marks what the surface has been given, `b` what it will have been given once the queue is drained. */
  ghost predicate Tracks(t: Trace, a: seq<Mark>, b: seq<Mark>) {
    var c := t.run.c;
    var works := Works(t.run.calls);
    && t.received != []
    && Consistent(c)
    && ShowsInOrder(works, a, t.received, t.page)
    && ShowsInOrder(works + c.queue, b, t.received, t.page)
    && Admits(t, b)
    && Hands(t)
  }

  /** How the controller stands to the open subscription. */
  ghost predicate Admits(t: Trace, b: seq<Mark>)
    requires t.received != [] && b != []
  {
    var c, n := t.run.c, |Last(t.received)|;
    && (c.hydrated ==> c.lastSequence <= n && !t.lost)
    && (c.hydrated && !c.overflowed && c.lastSequence == n ==> Last(b) == Mark(|t.received| - 1, n))
    && (n == 0 && !t.lost ==> !c.hydrated && Last(b).count == 0)
    && (c.owned && c.overflowed ==> !c.hydrated && (n > 0 || t.lost))
  }

  /** The history hand-over is still due exactly while the first subscription has delivered nothing. */
  ghost predicate Hands(t: Trace)
    requires t.received != []
  {
    var c := t.run.c;
    && (t.opening ==> t.received == [[]] && !t.lost && t.page.None? && Works(t.run.calls) == [] && c.queue == [] && !c.overflowed)
    && (Last(t.received) == [] && !t.lost ==>
          (|t.received| == 1 ==> !c.overflowed) &&
          if |t.received| == 1 && t.page.Some?
          then c.historyEnd == HistoryEnd(t.page.value) && c.historyTools == HistoryTools(t.page.value)
          else c.historyEnd == None && c.historyTools == {})
  }

  // ---- Bookkeeping lemmas ----

  lemma {:induction false} WorksConcat(a: seq<SurfaceCall>, b: seq<SurfaceCall>)
    ensures Works(a + b) == Works(a) + Works(b)
    decreases |b|
  {
    if b == [] {
      assert a + b == a;
    } else {
      assert (a + b)[..|a + b| - 1] == a + b[..|b| - 1];
      WorksConcat(a, b[..|b| - 1]);
    }
  }

  lemma {:induction false} WorksApplied(works: seq<Work>)
    ensures Works(Applied(works)) == works
    decreases |works|
  {
    if works != [] {
      var front := works[..|works| - 1];
      assert Applied(works)[..|works| - 1] == Applied(front);
      WorksApplied(front);
    }
  }

  lemma BlocksSnoc(works: seq<Work>, w: Work)
    ensures Blocks(works + [w]) ==
            match w
            case TerminalMessage(m) => Blocks(works)[..|Blocks(works)| - 1] + [Last(Blocks(works)) + [m]]
            case TerminalHistory(_) => Blocks(works)
            case TerminalReset(_) => Blocks(works) + [[]]
  {
    assert (works + [w])[..|works|] == works;
  }

  lemma TerminalSnoc(ms: seq<Message>, m: Message, page: Option<seq<Row>>)
    ensures Terminal(ms + [m], page) ==
            Terminal(ms, page) +
            (if AppOwned(m.event) then []
             else [if page.Some? then Shown(m, HistoryEnd(page.value), HistoryTools(page.value)) else m])
  {
    assert (ms + [m])[..|ms|] == ms;
  }

  ghost predicate Extends(received: seq<seq<Message>>, later: seq<seq<Message>>) {
    |received| <= |later| && forall s :: 0 <= s < |received| ==> received[s] <= later[s]
  }

  /** What is shown stays shown when the subscriptions deliver more. */
  lemma ShownStays(works: seq<Work>, marks: seq<Mark>, received: seq<seq<Message>>, later: seq<seq<Message>>, page: Option<seq<Row>>)
    requires ShowsInOrder(works, marks, received, page) && Extends(received, later)
    ensures ShowsInOrder(works, marks, later, page)
  {
    forall i | 0 <= i < |marks| ensures BlockShows(Blocks(works)[i], marks[i], later, page) {
      var s, k := marks[i].sub, marks[i].count;
      assert received[s] <= later[s];
      assert later[s][..k] == received[s][..k];
    }
  }

  /** An empty last block may as well be read as nothing of any later subscription. */
  lemma Remark(works: seq<Work>, marks: seq<Mark>, received: seq<seq<Message>>, page: Option<seq<Row>>, sub: nat)
    requires ShowsInOrder(works, marks, received, page) && Last(Blocks(works)) == []
    requires Last(marks).sub <= sub < |received|
    ensures ShowsInOrder(works, marks[..|marks| - 1] + [Mark(sub, 0)], received, page)
  {
    assert received[sub][..0] == [];
  }

  /** A reset opens a block for a subscription that has delivered nothing yet. */
  lemma ResetOpensBlock(works: seq<Work>, marks: seq<Mark>, received: seq<seq<Message>>, page: Option<seq<Row>>, reason: Reason)
    requires ShowsInOrder(works, marks, received, page)
    ensures ShowsInOrder(works + [TerminalReset(reason)], marks + [Mark(|received|, 0)], received + [[]], page)
  {
    var later, all := received + [[]], marks + [Mark(|received|, 0)];
    var blocks := Blocks(works + [TerminalReset(reason)]);
    ShownStays(works, marks, received, later, page);
    BlocksSnoc(works, TerminalReset(reason));
    assert later[|received|][..0] == [] && |blocks| == |marks| + 1;
    forall i | 0 <= i < |all| ensures BlockShows(blocks[i], all[i], later, page) {
      if i < |marks| {
        assert BlockShows(Blocks(works)[i], marks[i], received, page) && BlockShows(Blocks(works)[i], marks[i], later, page);
      }
    }
    forall i, j | 0 <= i < j < |all| ensures all[i].sub < all[j].sub {
      assert BlockShows(Blocks(works)[i], marks[i], received, page);
    }
  }

  function Grown(received: seq<seq<Message>>, m: Message): (r: seq<seq<Message>>)
    requires received != []
    ensures |r| == |received| && Extends(received, r) && Last(r) == Last(received) + [m]
  {
    received[..|received| - 1] + [Last(received) + [m]]
  }

  /** The terminal's part of one more message of the subscription the last block shows completely. */
  function NextWork(m: Message, page: Option<seq<Row>>): (works: seq<Work>) {
    if AppOwned(m.event) then []
    else [TerminalMessage(if page.Some? then Shown(m, HistoryEnd(page.value), HistoryTools(page.value)) else m)]
  }

  /** Only the last block and its mark change. */
  lemma LastBlockChanges(works: seq<Work>, marks: seq<Mark>, received: seq<seq<Message>>, page: Option<seq<Row>>,
                         grown: seq<Work>, block: seq<Message>, mark: Mark)
    requires ShowsInOrder(works, marks, received, page)
    requires Blocks(grown) == Blocks(works)[..|Blocks(works)| - 1] + [block]
    requires BlockShows(block, mark, received, page) && mark.sub == Last(marks).sub
    ensures ShowsInOrder(grown, marks[..|marks| - 1] + [mark], received, page)
  {
  }

  lemma LastReplaced(blocks: seq<seq<Message>>, last: seq<Message>)
    requires blocks != [] && Last(blocks) == last
    ensures blocks == blocks[..|blocks| - 1] + [last]
  {
  }

  /** The last block once the terminal's part of one more message is added. */
  lemma GrownBlock(works: seq<Work>, m: Message, page: Option<seq<Row>>, cur: seq<Message>)
    requires Last(Blocks(works)) == Terminal(cur, page)
    ensures Blocks(works + NextWork(m, page)) == Blocks(works)[..|Blocks(works)| - 1] + [Terminal(cur + [m], page)]
  {
    var more := NextWork(m, page);
    TerminalSnoc(cur, m, page);
    if more == [] {
      assert works + more == works && Terminal(cur + [m], page) == Terminal(cur, page);
      LastReplaced(Blocks(works), Terminal(cur, page));
    } else {
      assert more == [more[0]];
      BlocksSnoc(works, more[0]);
    }
  }

  lemma BlockGrows(works: seq<Work>, marks: seq<Mark>, received: seq<seq<Message>>, page: Option<seq<Row>>, m: Message)
    requires received != [] && ShowsInOrder(works, marks, received, page)
    requires Last(marks) == Mark(|received| - 1, |Last(received)|)
    ensures var sub := |received| - 1;
            ShowsInOrder(works + NextWork(m, if sub == 0 then page else None),
                         marks[..|marks| - 1] + [Mark(sub, |Last(received)| + 1)], Grown(received, m), page)
  {
    var sub, cur := |received| - 1, Last(received);
    var own := if sub == 0 then page else None;
    var later := Grown(received, m);
    ShownStays(works, marks, received, later, page);
    assert BlockShows(Last(Blocks(works)), Last(marks), received, page);
    assert cur[..|cur|] == cur && later[sub][..|cur| + 1] == cur + [m];
    GrownBlock(works, m, own, cur);
    LastBlockChanges(works, marks, later, page, works + NextWork(m, own), Terminal(cur + [m], own), Mark(sub, |cur| + 1));
  }

  // ---- What one step gives to the surface ----

  function Given(c: Controller, i: Input): (works: seq<Work>) {
    match i
    case Deliver(m, admitted) =>
      if c.owned && admitted && !Misdelivered(c, m) && !AppOwned(m.event)
      then [TerminalMessage(Shown(m, c.historyEnd, c.historyTools))] else []
    case History(rows) => if c.owned && !c.hydrated then [TerminalHistory(rows)] else []
    case Cutover(reason) => if c.owned then [TerminalReset(reason)] else []
    case Loss => []
    case SetOwned(owned) => if owned && !c.owned && !c.overflowed then c.queue else []
  }

  lemma {:induction false} ApplyNowGives(m: Message, changed: bool)
    ensures Works(ApplyNow(m, changed)) == if AppOwned(m.event) then [] else [TerminalMessage(m)]
  {
    OneCall(Render);
    OneCall(Apply(TerminalMessage(m)));
    WorksConcat([Apply(TerminalMessage(m))], [Render]);
    assert [Apply(TerminalMessage(m))] + [Render] == [Apply(TerminalMessage(m)), Render];
  }

  lemma {:induction false} DeliverGives(c: Controller, m: Message, admitted: bool)
    ensures Works(Accept(c, m, admitted).calls) == Given(c, Deliver(m, admitted))
  {
    ApplyNowGives(Shown(m, c.historyEnd, c.historyTools), StateChanged(m.event));
  }

  /** Painting after the queued works gives no more of them. */
  lemma {:induction false} DrainGives(queue: seq<Work>, paint: seq<SurfaceCall>)
    requires paint == [] || paint == [Render]
    ensures Works(Applied(queue) + paint) == queue
  {
    WorksApplied(queue);
    WorksConcat(Applied(queue), paint);
    OneCall(Render);
    assert queue + [] == queue;
  }

  lemma {:induction false} OwnershipGives(c: Controller, owned: bool)
    ensures Works(SetNormalBufferOwned(c, owned).calls) == Given(c, SetOwned(owned))
  {
    if owned && !c.owned && !c.overflowed {
      DrainGives(c.queue, []);
      DrainGives(c.queue, [Render]);
      assert Applied(c.queue) + [] == Applied(c.queue);
    }
  }

  lemma {:induction false} StepGives(c: Controller, i: Input)
    ensures Works(Step(c, i).calls) == Given(c, i)
  {
    match i
    case Deliver(m, admitted) => DeliverGives(c, m, admitted);
    case SetOwned(owned) => OwnershipGives(c, owned);
    case History(rows) => OneCall(Apply(TerminalHistory(rows)));
    case Cutover(reason) => OneCall(Apply(TerminalReset(reason)));
    case Loss =>
  }

  lemma OneCall(call: SurfaceCall)
    ensures Works([call]) == if call.Apply? then [call.work] else []
  {
    assert [call][..0] == [];
  }

  lemma {:induction false} FeedGives(t: Trace, i: Input)
    requires t.received != []
    ensures Works(Feed(t, i).run.calls) == Works(t.run.calls) + Given(t.run.c, i)
  {
    StepGives(t.run.c, i);
    WorksConcat(t.run.calls, Step(t.run.c, i).calls);
  }

  // ---- One step keeps the invariant ----

  /** A cutover opens the next subscription; with the buffer owned nothing is queued behind it. */
  lemma CutoverFeeds(t: Trace, reason: Reason)
    requires t.received != []
    ensures var r := Feed(t, Cutover(reason));
            && r.received == t.received + [[]] && r.page == t.page && !r.lost && !r.opening
            && r.run.c == Step(t.run.c, Cutover(reason)).next && !r.run.c.hydrated
            && r.run.c.historyEnd == None && r.run.c.historyTools == {}
            && (t.run.c.owned && t.run.c.queue == [] ==> r.run.c.queue == [])
            && (r.run.c.owned && t.run.c.overflowed ==> !r.run.c.overflowed)
            && r.run.c.owned == t.run.c.owned
  {
  }

  lemma CutoverAdmits(t: Trace, reason: Reason, b: seq<Mark>)
    requires t.received != [] && b != [] && Last(b).count == 0 && Consistent(t.run.c)
    ensures Admits(Feed(t, Cutover(reason)), b) && Hands(Feed(t, Cutover(reason)))
  {
    CutoverFeeds(t, reason);
  }

  lemma {:induction false} CutoverTracks(t: Trace, reason: Reason, a: seq<Mark>, b: seq<Mark>) returns (a': seq<Mark>, b': seq<Mark>)
    requires Tracks(t, a, b) && Safe(t, Cutover(reason))
    ensures Tracks(Feed(t, Cutover(reason)), a', b')
  {
    StepIsConsistent(t.run.c, Cutover(reason));
    CutoverFeeds(t, reason);
    if t.run.c.owned {
      a' := OwnedCutoverShows(t, reason, a);
      b' := a';
    } else if DropsReset(t.run.c, reason) {
      a' := DroppedCutoverShows(t, reason, a, b);
      b' := a';
    } else {
      a' := a;
      b' := DeferredCutoverShows(t, reason, a, b);
    }
    CutoverAdmits(t, reason, b');
  }

  /** The outcome of a cutover for the marks: what is given, and what is still queued behind it. */
  ghost predicate Displays(t: Trace, a: seq<Mark>, b: seq<Mark>) {
    && ShowsInOrder(Works(t.run.calls), a, t.received, t.page)
    && ShowsInOrder(Works(t.run.calls) + t.run.c.queue, b, t.received, t.page)
    && Last(b).count == 0
  }

  lemma {:induction false} OwnedCutoverShows(t: Trace, reason: Reason, a: seq<Mark>) returns (a': seq<Mark>)
    requires t.received != [] && t.run.c.owned && t.run.c.queue == []
    requires ShowsInOrder(Works(t.run.calls), a, t.received, t.page)
    ensures Displays(Feed(t, Cutover(reason)), a', a')
  {
    var shown := Works(t.run.calls) + [TerminalReset(reason)];
    FeedGives(t, Cutover(reason));
    CutoverFeeds(t, reason);
    ResetOpensBlock(Works(t.run.calls), a, t.received, t.page, reason);
    a' := a + [Mark(|t.received|, 0)];
    assert shown + [] == shown;
  }

  lemma {:induction false} DroppedCutoverShows(t: Trace, reason: Reason, a: seq<Mark>, b: seq<Mark>) returns (a': seq<Mark>)
    requires Tracks(t, a, b) && DropsReset(t.run.c, reason) && Safe(t, Cutover(reason))
    ensures Displays(Feed(t, Cutover(reason)), a', a')
  {
    var works := Works(t.run.calls);
    FeedGives(t, Cutover(reason));
    CutoverFeeds(t, reason);
    Remark(works, a, t.received, t.page, Last(a).sub);
    a' := a[..|a| - 1] + [Mark(Last(a).sub, 0)];
    ShownStays(works, a', t.received, t.received + [[]], t.page);
    assert works + [] == works;
  }

  lemma {:induction false} DeferredCutoverShows(t: Trace, reason: Reason, a: seq<Mark>, b: seq<Mark>) returns (b': seq<Mark>)
    requires Tracks(t, a, b) && !t.run.c.owned && !DropsReset(t.run.c, reason)
    ensures Displays(Feed(t, Cutover(reason)), a, b')
  {
    var c, works := t.run.c, Works(t.run.calls);
    assert works + [] == works;
    if reason == Resize && !c.overflowed {
      b' := KeptQueueShows(t, reason, c.queue, a, b);
    } else {
      b' := KeptQueueShows(t, reason, [], a, a);
    }
  }

  /** What a deferred cutover leaves: nothing given, and the reset queued behind what is kept of the queue. */
  lemma DeferredFeeds(t: Trace, reason: Reason, kept: seq<Work>)
    requires t.received != [] && Consistent(t.run.c) && !t.run.c.owned && !DropsReset(t.run.c, reason)
    requires kept == if reason == Resize && !t.run.c.overflowed then t.run.c.queue else []
    ensures var r := Feed(t, Cutover(reason));
            && Works(r.run.calls) == Works(t.run.calls) && r.run.c.queue == kept + [TerminalReset(reason)]
            && r.received == t.received + [[]] && r.page == t.page
  {
    FeedGives(t, Cutover(reason));
    CutoverFeeds(t, reason);
    DeferredReset(t.run.c, reason, kept);
    assert Works(t.run.calls) + [] == Works(t.run.calls);
  }

  lemma {:induction false} KeptQueueShows(t: Trace, reason: Reason, kept: seq<Work>, a: seq<Mark>, marks: seq<Mark>)
    returns (b': seq<Mark>)
    requires t.received != [] && Consistent(t.run.c) && !t.run.c.owned && !DropsReset(t.run.c, reason)
    requires kept == if reason == Resize && !t.run.c.overflowed then t.run.c.queue else []
    requires ShowsInOrder(Works(t.run.calls), a, t.received, t.page)
    requires ShowsInOrder(Works(t.run.calls) + kept, marks, t.received, t.page)
    ensures Displays(Feed(t, Cutover(reason)), a, b')
  {
    var works := Works(t.run.calls);
    b' := marks + [Mark(|t.received|, 0)];
    DeferredFeeds(t, reason, kept);
    QueuedReset(works, kept, marks, t.received, t.page, reason);
    ShownStays(works, a, t.received, t.received + [[]], t.page);
  }

  lemma QueuedReset(works: seq<Work>, kept: seq<Work>, marks: seq<Mark>, received: seq<seq<Message>>, page: Option<seq<Row>>, reason: Reason)
    requires ShowsInOrder(works + kept, marks, received, page)
    ensures ShowsInOrder(works + (kept + [TerminalReset(reason)]), marks + [Mark(|received|, 0)], received + [[]], page)
  {
    assert works + (kept + [TerminalReset(reason)]) == works + kept + [TerminalReset(reason)];
    ResetOpensBlock(works + kept, marks, received, page, reason);
  }

  lemma DeferredReset(c: Controller, reason: Reason, kept: seq<Work>)
    requires Consistent(c) && !c.owned && !DropsReset(c, reason)
    requires kept == if reason == Resize && !c.overflowed then c.queue else []
    ensures Step(c, Cutover(reason)).next.queue == kept + [TerminalReset(reason)]
  {
  }

  lemma {:induction false} LossTracks(t: Trace, a: seq<Mark>, b: seq<Mark>)
    requires Tracks(t, a, b) && Lawful(t, Loss)
    ensures Tracks(Feed(t, Loss), a, a)
  {
    StepIsConsistent(t.run.c, Loss);
    FeedGives(t, Loss);
    assert Works(t.run.calls) + [] == Works(t.run.calls);
  }

  lemma OwnershipAdmits(t: Trace, owned: bool, b: seq<Mark>)
    requires t.received != [] && b != [] && Admits(t, b) && Hands(t) && Consistent(t.run.c)
    ensures Admits(Feed(t, SetOwned(owned)), b)
  {
  }

  lemma OwnershipHands(t: Trace, owned: bool)
    requires t.received != [] && Hands(t) && Consistent(t.run.c)
    requires t.opening ==> Works(Feed(t, SetOwned(owned)).run.calls) == []
    ensures Hands(Feed(t, SetOwned(owned)))
  {
  }

  /** What was given and what is queued, put together, stay the same; regaining the buffer moves all to the former. */
  lemma OwnershipShows(t: Trace, owned: bool)
    requires t.received != [] && Consistent(t.run.c)
    ensures var works, queue := Works(t.run.calls), t.run.c.queue;
            var r := Feed(t, SetOwned(owned));
            && r.received == t.received && r.page == t.page
            && (if owned && !t.run.c.owned && !t.run.c.overflowed
                then Works(r.run.calls) == works + queue && r.run.c.queue == []
                else Works(r.run.calls) == works && r.run.c.queue == queue)
  {
    var works := Works(t.run.calls);
    FeedGives(t, SetOwned(owned));
    assert works + [] == works;
  }

  lemma {:induction false} OwnershipTracks(t: Trace, owned: bool, a: seq<Mark>, b: seq<Mark>) returns (a': seq<Mark>, b': seq<Mark>)
    requires Tracks(t, a, b)
    ensures Tracks(Feed(t, SetOwned(owned)), a', b')
  {
    var c, works := t.run.c, Works(t.run.calls);
    StepIsConsistent(c, SetOwned(owned));
    OwnershipShows(t, owned);
    OwnershipAdmits(t, owned, b);
    if owned && !c.owned && !c.overflowed {
      a', b' := b, b;
      assert works + c.queue + [] == works + c.queue;
      assert t.opening ==> works + c.queue == [];
    } else {
      a', b' := a, b;
    }
    OwnershipHands(t, owned);
  }

  /** What an admitted message adds for the terminal is the next message of the subscription being shown. */
  lemma {:induction false} AdmittedContinues(t: Trace, m: Message, b: seq<Mark>)
    requires t.received != [] && b != [] && Admits(t, b) && Hands(t) && Lawful(t, Deliver(m, true))
    requires !Misdelivered(t.run.c, m) && Consistent(t.run.c)
    ensures NextWork(m, if |t.received| == 1 then t.page else None) ==
            if AppOwned(m.event) then [] else [TerminalMessage(Shown(m, t.run.c.historyEnd, t.run.c.historyTools))]
    ensures !t.run.c.overflowed && t.run.c.hydrated ==> Last(b) == Mark(|t.received| - 1, |Last(t.received)|)
    ensures !t.run.c.hydrated ==> Last(t.received) == [] && Last(b).count == 0
  {
  }

  /** The marks once the last block is known to show the open subscription completely. */
  lemma {:induction false} BlockContinues(t: Trace, m: Message, works: seq<Work>, b: seq<Mark>) returns (b': seq<Mark>)
    requires t.received != [] && ShowsInOrder(works, b, t.received, t.page) && Admits(t, b) && Hands(t) && Consistent(t.run.c)
    requires Lawful(t, Deliver(m, true)) && !Misdelivered(t.run.c, m) && !t.run.c.overflowed
    ensures ShowsInOrder(works + NextWork(m, if |t.received| == 1 then t.page else None), b', Grown(t.received, m), t.page)
    ensures b' != [] && Last(b') == Mark(|t.received| - 1, |Last(t.received)| + 1)
  {
    AdmittedContinues(t, m, b);
    b' := NextBlock(works, b, t.received, t.page, m, t.run.c.hydrated);
  }

  lemma {:induction false} NextBlock(works: seq<Work>, b: seq<Mark>, received: seq<seq<Message>>, page: Option<seq<Row>>,
                                     m: Message, hydrated: bool) returns (b': seq<Mark>)
    requires received != [] && ShowsInOrder(works, b, received, page)
    requires if hydrated then Last(b) == Mark(|received| - 1, |Last(received)|)
             else Last(received) == [] && Last(b).count == 0
    ensures ShowsInOrder(works + NextWork(m, if |received| == 1 then page else None), b', Grown(received, m), page)
    ensures b' != [] && Last(b') == Mark(|received| - 1, |Last(received)| + 1)
  {
    var sub := |received| - 1;
    var b0 := b;
    if !hydrated {
      EmptyBlock(works, b, received, page);
      Remark(works, b, received, page, sub);
      b0 := b[..|b| - 1] + [Mark(sub, 0)];
    }
    BlockGrows(works, b0, received, page, m);
    b' := b0[..|b0| - 1] + [Mark(sub, |Last(received)| + 1)];
  }

  lemma EmptyBlock(works: seq<Work>, marks: seq<Mark>, received: seq<seq<Message>>, page: Option<seq<Row>>)
    requires ShowsInOrder(works, marks, received, page) && Last(marks).count == 0
    ensures Last(Blocks(works)) == [] && Last(marks).sub < |received|
  {
    assert BlockShows(Last(Blocks(works)), Last(marks), received, page);
    assert received[Last(marks).sub][..0] == [];
  }

  lemma DeliverFeeds(t: Trace, m: Message, admitted: bool)
    requires t.received != []
    ensures var r := Feed(t, Deliver(m, admitted));
            && r.received == Grown(t.received, m) && r.page == t.page && r.lost == t.lost && !r.opening
            && r.run.c == Step(t.run.c, Deliver(m, admitted)).next
  {
  }

  /** How the controller stands to the subscription that delivered, whatever became of the message. */
  lemma DeliverAdmits(t: Trace, m: Message, admitted: bool, b: seq<Mark>)
    requires t.received != [] && b != [] && Consistent(t.run.c) && Lawful(t, Deliver(m, admitted))
    requires t.run.c.hydrated ==> t.run.c.lastSequence <= |Last(t.received)|
    requires var c := Step(t.run.c, Deliver(m, admitted)).next;
             c.hydrated && !c.overflowed && c.lastSequence == |Last(t.received)| + 1 ==>
               Last(b) == Mark(|t.received| - 1, |Last(t.received)| + 1)
    requires t.run.c.owned && t.run.c.overflowed ==> !t.run.c.hydrated && |Last(t.received)| > 0
    ensures Admits(Feed(t, Deliver(m, admitted)), b) && Hands(Feed(t, Deliver(m, admitted)))
  {
    DeliverFeeds(t, m, admitted);
  }

  /** The message is not for the terminal now: misdelivered, not admitted, or met by a full or overflowed queue. */
  predicate TurnedAway(c: Controller, m: Message, admitted: bool) {
    || Misdelivered(c, m) || !admitted
    || (!c.owned && (c.overflowed || (|c.queue| >= QUEUE_LIMIT && !AppOwned(m.event))))
  }

  /** What becomes of the queue and the count when the message is turned away. */
  lemma TurnedAwayLeaves(c: Controller, m: Message, admitted: bool)
    requires Consistent(c) && TurnedAway(c, m, admitted)
    ensures var n := Step(c, Deliver(m, admitted)).next;
            && Given(c, Deliver(m, admitted)) == []
            && (n.queue == [] || n.queue == c.queue)
            && (n.hydrated && !n.overflowed ==> n.lastSequence == c.lastSequence && c.hydrated)
  {
  }

  lemma {:induction false} TurnedAwayTracks(t: Trace, m: Message, admitted: bool, a: seq<Mark>, b: seq<Mark>)
    returns (b': seq<Mark>)
    requires Tracks(t, a, b) && Lawful(t, Deliver(m, admitted)) && TurnedAway(t.run.c, m, admitted)
    ensures Tracks(Feed(t, Deliver(m, admitted)), a, b')
  {
    var c, i := t.run.c, Deliver(m, admitted);
    assert Works(t.run.calls) + [] == Works(t.run.calls);
    TurnedAwayLeaves(c, m, admitted);
    b' := if Step(c, i).next.queue == [] then a else b;
    RefusedShows(t, i, a, b');
    StepIsConsistent(c, i);
    DeliverAdmits(t, m, admitted, b');
  }

  lemma {:induction false} DeliverTracks(t: Trace, m: Message, admitted: bool, a: seq<Mark>, b: seq<Mark>) returns (a': seq<Mark>, b': seq<Mark>)
    requires Tracks(t, a, b) && Lawful(t, Deliver(m, admitted))
    ensures Tracks(Feed(t, Deliver(m, admitted)), a', b')
  {
    if TurnedAway(t.run.c, m, admitted) {
      a' := a;
      b' := TurnedAwayTracks(t, m, admitted, a, b);
    } else {
      StepIsConsistent(t.run.c, Deliver(m, admitted));
      if t.run.c.owned {
        assert Works(t.run.calls) + [] == Works(t.run.calls);
        a' := ShownNow(t, m, b);
        b' := a';
      } else {
        a' := a;
        b' := ShownLater(t, m, a, b);
      }
      DeliverAdmits(t, m, admitted, b');
    }
  }

  /** Nothing is added: what was shown before is shown after. */
  lemma {:induction false} RefusedShows(t: Trace, i: Input, a: seq<Mark>, b: seq<Mark>)
    requires t.received != [] && i.Deliver? && Given(t.run.c, i) == []
    requires ShowsInOrder(Works(t.run.calls), a, t.received, t.page)
    requires ShowsInOrder(Works(t.run.calls) + Step(t.run.c, i).next.queue, b, t.received, t.page)
    ensures var r := Feed(t, i);
            ShowsInOrder(Works(r.run.calls), a, r.received, r.page) &&
            ShowsInOrder(Works(r.run.calls) + r.run.c.queue, b, r.received, r.page)
  {
    var works := Works(t.run.calls);
    FeedGives(t, i);
    assert works + [] == works;
    ShownStays(works, a, t.received, Grown(t.received, i.message), t.page);
    ShownStays(works + Step(t.run.c, i).next.queue, b, t.received, Grown(t.received, i.message), t.page);
  }

  lemma {:induction false} ShownNow(t: Trace, m: Message, b: seq<Mark>) returns (a': seq<Mark>)
    requires t.received != [] && Consistent(t.run.c) && Lawful(t, Deliver(m, true)) && !Misdelivered(t.run.c, m)
    requires t.run.c.owned && ShowsInOrder(Works(t.run.calls) + t.run.c.queue, b, t.received, t.page)
    requires Admits(t, b) && Hands(t)
    ensures var r := Feed(t, Deliver(m, true));
            ShowsInOrder(Works(r.run.calls), a', r.received, r.page) &&
            ShowsInOrder(Works(r.run.calls) + r.run.c.queue, a', r.received, r.page)
    ensures a' != [] && Last(a') == Mark(|t.received| - 1, |Last(t.received)| + 1)
  {
    var works := Works(t.run.calls);
    FeedGives(t, Deliver(m, true));
    DeliverFeeds(t, m, true);
    AdmittedContinues(t, m, b);
    assert works + t.run.c.queue == works;
    a' := BlockContinues(t, m, works, b);
    var shown := works + Given(t.run.c, Deliver(m, true));
    assert shown + [] == shown;
  }

  /** A deferred message goes to the end of the queue as the next work of its subscription. */
  lemma {:induction false} QueueGrows(t: Trace, m: Message, b: seq<Mark>)
    requires t.received != [] && b != [] && Admits(t, b) && Hands(t) && Consistent(t.run.c)
    requires Lawful(t, Deliver(m, true)) && !Misdelivered(t.run.c, m)
    requires !t.run.c.owned && !t.run.c.overflowed && (|t.run.c.queue| < QUEUE_LIMIT || AppOwned(m.event))
    ensures Step(t.run.c, Deliver(m, true)).next.queue ==
            t.run.c.queue + NextWork(m, if |t.received| == 1 then t.page else None)
  {
    AdmittedContinues(t, m, b);
    assert t.run.c.queue + [] == t.run.c.queue;
  }

  lemma {:induction false} ShownLater(t: Trace, m: Message, a: seq<Mark>, b: seq<Mark>) returns (b': seq<Mark>)
    requires t.received != [] && Consistent(t.run.c) && Lawful(t, Deliver(m, true)) && !Misdelivered(t.run.c, m)
    requires !t.run.c.owned && !t.run.c.overflowed && (|t.run.c.queue| < QUEUE_LIMIT || AppOwned(m.event))
    requires ShowsInOrder(Works(t.run.calls), a, t.received, t.page)
    requires ShowsInOrder(Works(t.run.calls) + t.run.c.queue, b, t.received, t.page)
    requires Admits(t, b) && Hands(t)
    ensures var r := Feed(t, Deliver(m, true));
            ShowsInOrder(Works(r.run.calls), a, r.received, r.page) &&
            ShowsInOrder(Works(r.run.calls) + r.run.c.queue, b', r.received, r.page)
    ensures b' != [] && Last(b') == Mark(|t.received| - 1, |Last(t.received)| + 1)
  {
    var works, queue := Works(t.run.calls), t.run.c.queue;
    FeedGives(t, Deliver(m, true));
    DeliverFeeds(t, m, true);
    QueueGrows(t, m, b);
    b' := BlockContinues(t, m, works + queue, b);
    ShownStays(works, a, t.received, Grown(t.received, m), t.page);
    assert works + [] == works;
    var more := NextWork(m, if |t.received| == 1 then t.page else None);
    assert works + (queue + more) == works + queue + more;
  }

  /** A history page alone shows nothing of any subscription. */
  lemma {:induction false} PageShows(rows: seq<Row>, page: Option<seq<Row>>)
    ensures ShowsInOrder([], [Mark(0, 0)], [[]], page)
    ensures ShowsInOrder([TerminalHistory(rows)], [Mark(0, 0)], [[]], page)
  {
    BlocksSnoc([], TerminalHistory(rows));
    assert [] + [TerminalHistory(rows)] == [TerminalHistory(rows)];
    var none: seq<Message> := [];
    assert none[..0] == [];
  }

  lemma HistoryAdmits(t: Trace, rows: seq<Row>, b: seq<Mark>)
    requires t.received != [] && b != [] && Admits(t, b) && Hands(t) && Consistent(t.run.c) && t.opening
    ensures Admits(Feed(t, History(rows)), [Mark(0, 0)]) && Hands(Feed(t, History(rows)))
  {
  }

  /** With nothing shown yet, the page is given or queued and still nothing of a subscription is shown. */
  lemma {:induction false} HistoryShows(t: Trace, rows: seq<Row>)
    requires t.received == [[]] && Works(t.run.calls) == [] && t.run.c.queue == [] && !t.run.c.overflowed && !t.run.c.hydrated
    ensures var r := Feed(t, History(rows));
            ShowsInOrder(Works(r.run.calls), [Mark(0, 0)], r.received, r.page) &&
            ShowsInOrder(Works(r.run.calls) + r.run.c.queue, [Mark(0, 0)], r.received, r.page)
  {
    FeedGives(t, History(rows));
    PageShows(rows, Some(rows));
    var page := [TerminalHistory(rows)];
    assert [] + page == page && page + [] == page;
  }

  lemma {:induction false} HistoryTracks(t: Trace, rows: seq<Row>, a: seq<Mark>, b: seq<Mark>)
    requires Tracks(t, a, b) && Lawful(t, History(rows))
    ensures Tracks(Feed(t, History(rows)), [Mark(0, 0)], [Mark(0, 0)])
  {
    StepIsConsistent(t.run.c, History(rows));
    HistoryAdmits(t, rows, b);
    HistoryShows(t, rows);
  }

  // ---- The main theorem ----

  lemma {:induction false} StepTracks(t: Trace, i: Input, a: seq<Mark>, b: seq<Mark>) returns (a': seq<Mark>, b': seq<Mark>)
    requires Tracks(t, a, b) && Lawful(t, i) && Safe(t, i)
    ensures Tracks(Feed(t, i), a', b')
  {
    match i
    case Deliver(m, admitted) => a', b' := DeliverTracks(t, m, admitted, a, b);
    case History(rows) =>
      HistoryTracks(t, rows, a, b);
      a', b' := [Mark(0, 0)], [Mark(0, 0)];
    case Cutover(reason) => a', b' := CutoverTracks(t, reason, a, b);
    case Loss =>
      LossTracks(t, a, b);
      a', b' := a, a;
    case SetOwned(owned) => a', b' := OwnershipTracks(t, owned, a, b);
  }

  lemma {:induction false} RunTracks(t: Trace, inputs: seq<Input>, a: seq<Mark>, b: seq<Mark>) returns (a': seq<Mark>, b': seq<Mark>)
    requires Tracks(t, a, b) && LawfulRun(t, inputs) && SafeRun(t, inputs)
    ensures Tracks(Follow(t, inputs), a', b')
    decreases |inputs|
  {
    if inputs == [] {
      a', b' := a, b;
    } else {
      a', b' := StepTracks(t, inputs[0], a, b);
      a', b' := RunTracks(Feed(t, inputs[0]), inputs[1..], a', b');
    }
  }

  lemma StartTracks()
    ensures Tracks(START, [Mark(0, 0)], [Mark(0, 0)])
  {
    assert START.received[0][..0] == [];
    assert Works([]) + [] == [];
  }

  /** The controller has accepted everything the open subscription delivered. */
  predicate CaughtUp(t: Trace)
    requires t.received != []
  {
    t.run.c.hydrated && !t.run.c.overflowed && t.run.c.lastSequence == |Last(t.received)|
  }

  /** What was given, and then what is queued, ends in all that the open subscription has for the terminal. */
  ghost predicate ShowsAll(t: Trace)
    requires t.received != []
  {
    Last(Blocks(Works(t.run.calls) + t.run.c.queue)) ==
    Terminal(Last(t.received), if |t.received| == 1 then t.page else None)
  }

  lemma CaughtUpShowsAll(t: Trace, a: seq<Mark>, b: seq<Mark>)
    requires Tracks(t, a, b) && CaughtUp(t)
    ensures ShowsAll(t)
  {
    var last := |t.received| - 1;
    var works := Works(t.run.calls) + t.run.c.queue;
    assert BlockShows(Blocks(works)[|b| - 1], b[|b| - 1], t.received, t.page);
    assert t.received[last][..|t.received[last]|] == t.received[last];
  }

  /**
   Whatever the interleaving of messages, losses, cutovers and ownership changes, the terminal shows no gap; and when the
   controller has caught up, the terminal shows all there is, at once if the buffer is owned.
   */
  lemma NoRunHasASilentGap(inputs: seq<Input>)
    requires LawfulRun(START, inputs) && SafeRun(START, inputs)
    ensures var t := Follow(START, inputs);
            NoSilentGap(t) && (CaughtUp(t) ==> ShowsAll(t)) && (t.run.c.owned ==> t.run.c.queue == [])
  {
    StartTracks();
    var a, b := RunTracks(START, inputs, [Mark(0, 0)], [Mark(0, 0)]);
    var t := Follow(START, inputs);
    if CaughtUp(t) {
      CaughtUpShowsAll(t, a, b);
    }
  }
}
