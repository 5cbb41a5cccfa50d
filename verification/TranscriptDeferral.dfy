/**
 Deferral refines immediacy: giving the buffer away and taking it back delays terminal work but does not change it,
 as long as no step throws work away.
 */
module TranscriptDeferral {
  import opened Prelude
  import opened LiveReadModel
  import opened OngoingController
  import opened TranscriptDelivery

  /** The step throws away queued work, refuses new work, or forgets what was admitted. */
  predicate Loses(c: Controller, i: Input) {
    var full := c.overflowed || |c.queue| >= QUEUE_LIMIT;
    match i
    case Deliver(m, admitted) =>
      if Misdelivered(c, m) then c.queue != [] else admitted && !c.owned && !AppOwned(m.event) && full
    case History(_) => !c.hydrated && !c.owned && full
    case Cutover(reason) => if reason == Resize && !c.overflowed then !c.owned && full else c.queue != []
    case Loss => c.queue != []
    case SetOwned(owned) => owned && !c.owned && c.overflowed && (c.hydrated || c.historyEnd.Some?)
  }

  ghost predicate LosesNothing(r: Run, inputs: seq<Input>)
    decreases |inputs|
  {
    inputs != [] ==> !Loses(r.c, inputs[0]) && LosesNothing(Advance(r, inputs[0]), inputs[1..])
  }

  /** The same run with the buffer owned throughout. */
  function Immediate(inputs: seq<Input>): (r: seq<Input>) {
    if inputs == [] then []
    else (if inputs[0].SetOwned? then [] else [inputs[0]]) + Immediate(inputs[1..])
  }

  /** The deferring controller `d` differs from the immediate one only in what it still has to do. */
  ghost predicate Lags(d: Run, now: Run) {
    && Consistent(d.c) && Consistent(now.c)
    && now.c.owned
    && SameAdmission(d.c, now.c)
    && Works(now.calls) == Works(d.calls) + d.c.queue
  }

  ghost predicate SameAdmission(d: Controller, now: Controller) {
    && d.hydrated == now.hydrated && d.lastSequence == now.lastSequence
    && d.historyEnd == now.historyEnd && d.historyTools == now.historyTools
    && d.tools == now.tools
  }

  lemma {:induction false} AdvanceGives(r: Run, i: Input)
    ensures Works(Advance(r, i).calls) == Works(r.calls) + Given(r.c, i)
  {
    StepGives(r.c, i);
    WorksConcat(r.calls, Step(r.c, i).calls);
  }

  /** Nothing is lost: what was due plus what arrives is what is given plus what is still due. */
  ghost predicate Conserves(d: Controller, now: Controller, i: Input) {
    && d.queue + (if i.SetOwned? then [] else Given(now, i)) == Given(d, i) + Step(d, i).next.queue
    && SameAdmission(Step(d, i).next, if i.SetOwned? then now else Step(now, i).next)
    && (!i.SetOwned? ==> Step(now, i).next.owned)
  }

  lemma {:induction false} WorkIsConserved(d: Controller, now: Controller, i: Input)
    requires Consistent(d) && Consistent(now) && now.owned && SameAdmission(d, now) && !Loses(d, i)
    ensures Conserves(d, now, i)
  {
    match i
    case Deliver(m, admitted) => DeliveryIsConserved(d, now, m, admitted);
    case History(rows) => assert [] + [TerminalHistory(rows)] == [TerminalHistory(rows)] == [TerminalHistory(rows)] + [];
    case Cutover(reason) => CutoverIsConserved(d, now, reason);
    case Loss =>
    case SetOwned(owned) => assert [] + d.queue == d.queue == d.queue + [];
  }

  lemma {:induction false} DeliveryIsConserved(d: Controller, now: Controller, m: Message, admitted: bool)
    requires Consistent(d) && Consistent(now) && now.owned && SameAdmission(d, now) && !Loses(d, Deliver(m, admitted))
    ensures Conserves(d, now, Deliver(m, admitted))
  {
    assert [] + d.queue == d.queue == d.queue + [];
    if !Misdelivered(d, m) && admitted && !AppOwned(m.event) {
      var work := TerminalMessage(Shown(m, d.historyEnd, d.historyTools));
      assert [] + [work] == [work] == [work] + [];
      assert [] + (d.queue + [work]) == d.queue + [work];
    }
  }

  lemma {:induction false} CutoverIsConserved(d: Controller, now: Controller, reason: Reason)
    requires Consistent(d) && Consistent(now) && now.owned && SameAdmission(d, now) && !Loses(d, Cutover(reason))
    ensures Conserves(d, now, Cutover(reason))
  {
    var work := TerminalReset(reason);
    assert [] + [work] == [work] == [work] + [];
    assert [] + (d.queue + [work]) == d.queue + [work];
  }

  lemma {:induction false} LagIsKept(d: Run, now: Run, i: Input)
    requires Lags(d, now) && !Loses(d.c, i)
    ensures Lags(Advance(d, i), if i.SetOwned? then now else Advance(now, i))
  {
    StepIsConsistent(d.c, i);
    StepIsConsistent(now.c, i);
    AdvanceGives(d, i);
    AdvanceGives(now, i);
    WorkIsConserved(d.c, now.c, i);
    LagRegroups(Works(d.calls), d.c.queue, if i.SetOwned? then [] else Given(now.c, i), Given(d.c, i), Step(d.c, i).next.queue);
  }

  lemma LagRegroups(given: seq<Work>, queue: seq<Work>, due: seq<Work>, more: seq<Work>, left: seq<Work>)
    requires queue + due == more + left
    ensures given + queue + due == given + more + left
  {
    assert given + queue + due == given + (queue + due);
    assert given + more + left == given + (more + left);
  }

  lemma {:induction false} LagsThroughout(d: Run, now: Run, inputs: seq<Input>)
    requires Lags(d, now) && LosesNothing(d, inputs)
    ensures Lags(Play(d, inputs), Play(now, Immediate(inputs)))
    decreases |inputs|
  {
    if inputs != [] {
      var i, rest := inputs[0], inputs[1..];
      LagIsKept(d, now, i);
      if i.SetOwned? {
        assert Immediate(inputs) == Immediate(rest);
        LagsThroughout(Advance(d, i), now, rest);
      } else {
        assert Immediate(inputs)[1..] == Immediate(rest);
        LagsThroughout(Advance(d, i), Advance(now, i), rest);
      }
    }
  }

  /**
   In every run that throws nothing away, the works given to the surface followed by the queue are the works given
   when the buffer is owned throughout; a run that ends owned has given exactly those.
   */
  lemma {:induction false} DeferralRefinesImmediacy(inputs: seq<Input>)
    requires LosesNothing(FRESH, inputs)
    ensures var d, now := Play(FRESH, inputs), Play(FRESH, Immediate(inputs));
            Works(d.calls) + d.c.queue == Works(now.calls) && (d.c.owned ==> Works(d.calls) == Works(now.calls))
  {
    assert Works([]) + [] == [];
    LagsThroughout(FRESH, FRESH, inputs);
  }

  // ---- Runs that throw nothing away ----

  /** No gap, no loss, no overflow, and resize cutovers only. */
  ghost predicate Calm(r: Run, inputs: seq<Input>)
    decreases |inputs|
  {
    && !r.c.overflowed
    && (inputs != [] ==>
          && !inputs[0].Loss?
          && (inputs[0].Cutover? ==> inputs[0].reason == Resize)
          && (inputs[0].Deliver? ==> !Misdelivered(r.c, inputs[0].message))
          && Calm(Advance(r, inputs[0]), inputs[1..]))
  }

  lemma {:induction false} CalmRunsLoseNothing(r: Run, inputs: seq<Input>)
    requires Consistent(r.c) && Calm(r, inputs)
    ensures LosesNothing(r, inputs)
    decreases |inputs|
  {
    if inputs != [] {
      StepIsConsistent(r.c, inputs[0]);
      CalmRunsLoseNothing(Advance(r, inputs[0]), inputs[1..]);
    }
  }
}
