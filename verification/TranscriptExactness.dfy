/**
 Exactly when the terminal can be shown a gap: a resize cutover that loses its own reset while the terminal shows
 messages. Such a state is reachable, and from every such state a lawful continuation shows two subscriptions as one.
 */
module TranscriptExactness {
  import opened Prelude
  import opened OngoingController
  import opened TranscriptDelivery

  // ---- A continuation that shows the gap ----

  ghost predicate ReceivedNumbered(t: Trace) {
    forall s :: 0 <= s < |t.received| ==> Numbered(t.received[s])
  }

  lemma {:induction false} ReceivedIsNumbered(t: Trace, inputs: seq<Input>)
    requires t.received != [] && ReceivedNumbered(t) && LawfulRun(t, inputs)
    ensures ReceivedNumbered(Follow(t, inputs))
    decreases |inputs|
  {
    if inputs != [] {
      ReceivedIsNumbered(Feed(t, inputs[0]), inputs[1..]);
    }
  }

  /** Within one subscription only the first message the terminal is given is a hydration. */
  lemma {:induction false} HydrationComesFirst(ms: seq<Message>, page: Option<seq<Row>>)
    requires Numbered(ms)
    ensures forall j :: 0 < j < |Terminal(ms, page)| ==> !Terminal(ms, page)[j].event.Hydrated?
    ensures |ms| > 0 ==> |Terminal(ms, page)| > 0
    decreases |ms|
  {
    if |ms| == 1 {
      assert ms == [] + [ms[0]];
      TerminalSnoc([], ms[0], page);
    } else if |ms| > 1 {
      var front := ms[..|ms| - 1];
      HydrationComesFirst(front, page);
      assert ms == front + [Last(ms)];
      TerminalSnoc(front, Last(ms), page);
    }
  }

  const BARE := Message(1, Hydrated(Hydration([], 0, [], 0)))

  /** After the lost reset: the buffer is regained, then the next subscription hydrates. */
  const EXPOSE: seq<Input> := [SetOwned(true), Deliver(BARE, true)]

  lemma {:induction false} LostResetShowsGap(t: Trace, reason: Reason, a: seq<Mark>, b: seq<Mark>)
    requires Tracks(t, a, b) && ReceivedNumbered(t) && !Safe(t, Cutover(reason))
    ensures var cut := Feed(t, Cutover(reason));
            LawfulRun(cut, EXPOSE) && SafeRun(cut, EXPOSE) && !NoSilentGap(Follow(cut, EXPOSE))
  {
    var cut := Feed(t, Cutover(reason));
    var regained := Feed(cut, SetOwned(true));
    var hydrated := Feed(regained, Deliver(BARE, true));
    LostResetLeads(t, reason);
    assert EXPOSE[1..] == [Deliver(BARE, true)] && EXPOSE[1..][1..] == [];
    assert Follow(hydrated, []) == hydrated;
    assert Follow(cut, EXPOSE) == Follow(regained, [Deliver(BARE, true)]) == hydrated;
    assert ReceivedNumbered(hydrated);
    TwoHydrationsAreAGap(hydrated, Works(t.run.calls));
  }

  /** What the controller does in that continuation. */
  lemma {:induction false} LostResetLeads(t: Trace, reason: Reason)
    requires t.received != [] && DropsReset(t.run.c, reason)
    ensures var cut := Feed(t, Cutover(reason));
            var regained := Feed(cut, SetOwned(true));
            var hydrated := Feed(regained, Deliver(BARE, true));
            && Lawful(regained, Deliver(BARE, true))
            && hydrated.received == t.received + [[BARE]]
            && Works(hydrated.run.calls) == Works(t.run.calls) + [TerminalMessage(BARE)]
  {
    var cut := Feed(t, Cutover(reason));
    var regained := Feed(cut, SetOwned(true));
    var shown := Works(t.run.calls);
    FeedGives(t, Cutover(reason));
    FeedGives(cut, SetOwned(true));
    FeedGives(regained, Deliver(BARE, true));
    assert shown + [] == shown;
    assert Works(regained.run.calls) == shown;
    assert (t.received + [[]])[..|t.received|] == t.received && [] + [BARE] == [BARE];
  }

  lemma {:induction false} TwoHydrationsAreAGap(t: Trace, shown: seq<Work>)
    requires ReceivedNumbered(t) && Works(t.run.calls) == shown + [TerminalMessage(BARE)]
    requires Last(Blocks(shown)) != []
    ensures !NoSilentGap(t)
  {
    var works := shown + [TerminalMessage(BARE)];
    BlocksSnoc(shown, TerminalMessage(BARE));
    forall marks ensures !ShowsInOrder(works, marks, t.received, t.page) {
      if ShowsInOrder(works, marks, t.received, t.page) {
        LateHydration(Last(Blocks(shown)), Last(marks), t);
      }
    }
  }

  lemma {:induction false} LateHydration(before: seq<Message>, mark: Mark, t: Trace)
    requires ReceivedNumbered(t) && before != []
    ensures !BlockShows(before + [BARE], mark, t.received, t.page)
  {
    assert (before + [BARE])[|before|] == BARE;
    if BlockShows(before + [BARE], mark, t.received, t.page) {
      HydrationComesFirst(t.received[mark.sub][..mark.count], if mark.sub == 0 then t.page else None);
    }
  }

  lemma {:induction false} TrackedRunsHaveNoGap(t: Trace, a: seq<Mark>, b: seq<Mark>)
    requires Tracks(t, a, b)
    ensures forall tail :: LawfulRun(t, tail) && SafeRun(t, tail) ==> NoSilentGap(Follow(t, tail))
  {
    forall tail | LawfulRun(t, tail) && SafeRun(t, tail) ensures NoSilentGap(Follow(t, tail)) {
      var shown, due := RunTracks(t, tail, a, b);
    }
  }

  /** A cutover is followed by a gap in some continuation exactly when it is not safe. */
  lemma {:induction false} GapExactlyWhenResetIsLost(inputs: seq<Input>, reason: Reason)
    requires LawfulRun(START, inputs) && SafeRun(START, inputs)
    ensures var t := Follow(START, inputs);
            var cut := Feed(t, Cutover(reason));
            Safe(t, Cutover(reason)) <==>
            forall tail :: LawfulRun(cut, tail) && SafeRun(cut, tail) ==> NoSilentGap(Follow(cut, tail))
  {
    var t := Follow(START, inputs);
    var cut := Feed(t, Cutover(reason));
    StartTracks();
    var a, b := RunTracks(START, inputs, [Mark(0, 0)], [Mark(0, 0)]);
    if Safe(t, Cutover(reason)) {
      a, b := StepTracks(t, Cutover(reason), a, b);
      TrackedRunsHaveNoGap(cut, a, b);
    } else {
      ReceivedIsNumbered(START, inputs);
      LostResetShowsGap(t, reason, a, b);
    }
  }

  // ---- Such a state is reachable ----

  /** n streamed messages, numbered from `next`. */
  function Chatter(next: nat, n: nat): (inputs: seq<Input>)
    decreases n
  {
    if n == 0 then [] else [Deliver(Message(next, Streamed("")), true)] + Chatter(next + 1, n - 1)
  }

  /** The terminal shows one hydration, does not own the buffer, and n messages are queued. */
  ghost predicate Filled(t: Trace, n: nat) {
    && t.received != [] && !t.lost && |Last(t.received)| == n + 1
    && !t.run.c.owned && t.run.c.hydrated && t.run.c.lastSequence == n + 1
    && !t.run.c.overflowed && |t.run.c.queue| == n
    && Works(t.run.calls) == [TerminalMessage(BARE)]
  }

  lemma {:induction false} ChatterFills(t: Trace, from: nat, n: nat)
    requires Filled(t, from) && from + n <= QUEUE_LIMIT
    ensures LawfulRun(t, Chatter(from + 2, n)) && SafeRun(t, Chatter(from + 2, n))
    ensures Filled(Follow(t, Chatter(from + 2, n)), from + n)
    decreases n
  {
    if n > 0 {
      var i := Deliver(Message(from + 2, Streamed("")), true);
      FillContinues(t, from + 1);
      assert Chatter(from + 2, n)[1..] == Chatter(from + 3, n - 1);
      ChatterFills(Feed(t, i), from + 1, n - 1);
    }
  }

  lemma {:induction false} FillContinues(t: Trace, n: nat)
    requires 0 < n <= QUEUE_LIMIT && Filled(t, n - 1)
    ensures var i := Deliver(Message(n + 1, Streamed("")), true); Lawful(t, i) && Safe(t, i) && Filled(Feed(t, i), n)
  {
    FeedGives(t, Deliver(Message(n + 1, Streamed("")), true));
  }

  lemma {:induction false} FillStarts()
    ensures Filled(Feed(Feed(START, Deliver(BARE, true)), SetOwned(false)), 0)
  {
    var hydrated := Feed(START, Deliver(BARE, true));
    FeedGives(START, Deliver(BARE, true));
    FeedGives(hydrated, SetOwned(false));
    assert Works([]) + [TerminalMessage(BARE)] == [TerminalMessage(BARE)];
    assert [TerminalMessage(BARE)] + [] == [TerminalMessage(BARE)];
  }

  lemma {:induction false} FullQueueLosesReset(t: Trace)
    requires Filled(t, QUEUE_LIMIT)
    ensures !Safe(t, Cutover(Resize))
  {
    BlocksSnoc([], TerminalMessage(BARE));
    assert [] + [TerminalMessage(BARE)] == [TerminalMessage(BARE)];
  }

  lemma RunFront(t: Trace, i: Input, tail: seq<Input>)
    requires t.received != [] && Lawful(t, i) && Safe(t, i) && LawfulRun(Feed(t, i), tail) && SafeRun(Feed(t, i), tail)
    ensures LawfulRun(t, [i] + tail) && SafeRun(t, [i] + tail)
    ensures Follow(t, [i] + tail) == Follow(Feed(t, i), tail)
  {
    assert ([i] + tail)[1..] == tail;
  }

  lemma RunOfTwo(t: Trace, i: Input, j: Input, rest: seq<Input>)
    requires t.received != [] && Lawful(t, i) && Safe(t, i) && Lawful(Feed(t, i), j) && Safe(Feed(t, i), j)
    requires LawfulRun(Feed(Feed(t, i), j), rest) && SafeRun(Feed(Feed(t, i), j), rest)
    ensures LawfulRun(t, [i, j] + rest) && SafeRun(t, [i, j] + rest)
    ensures Follow(t, [i, j] + rest) == Follow(Feed(Feed(t, i), j), rest)
  {
    RunFront(Feed(t, i), j, rest);
    RunFront(t, i, [j] + rest);
    assert [i, j] + rest == [i] + ([j] + rest);
  }

  /** One hydration, the buffer given up, and a thousand queued messages: a resize cutover now loses its reset. */
  lemma {:induction false} LostResetIsReachable() returns (inputs: seq<Input>)
    ensures LawfulRun(START, inputs) && SafeRun(START, inputs)
    ensures !Safe(Follow(START, inputs), Cutover(Resize))
  {
    var away := Feed(Feed(START, Deliver(BARE, true)), SetOwned(false));
    FillStarts();
    ChatterFills(away, 0, QUEUE_LIMIT);
    FullQueueLosesReset(Follow(away, Chatter(2, QUEUE_LIMIT)));
    inputs := [Deliver(BARE, true), SetOwned(false)] + Chatter(2, QUEUE_LIMIT);
    RunOfTwo(START, Deliver(BARE, true), SetOwned(false), Chatter(2, QUEUE_LIMIT));
  }
}
