/**
 Goal mutations across sessions: when the state that makes mutations wait can outlive the answer it waits for, and when
 coming back to a session puts two mutations in flight, told by the order of what was sent and answered.
 */
module GoalSessions {
  import opened Prelude
  import opened GoalMutations
  import opened GoalRuns

  // --- Waiting for an answer that has come and gone ---

  /** Mutations of the session wait for one whose answer is no longer to come. */
  predicate Stranded(t: Trace) {
    t.machine.pending.inFlight && Flying(t.machine.pending) !in t.open
  }

  /** The answer to the mutation in flight comes while another session is on screen. */
  predicate Strands(t: Trace, e: Event) {
    && e.Result? && e.command in t.open && !InSession(t.machine, e.command)
    && t.machine.pending.inFlight && e.command == Flying(t.machine.pending)
  }

  /** A mutation is asked for in a session other than the one that waits. */
  predicate Frees(t: Trace, e: Event) {
    Mutating(t, e) && TrimSpace(t.machine.session) != t.machine.pending.session
  }

  lemma SendStrands(t: Trace, session: string, op: Operation, objective: string, asked: seq<Ask>)
    requires Sound(t)
    ensures Stranded(Noted(t, CommandFor(t.machine, session, op, objective), asked)) <==>
            Stranded(t) && !(Mutates(op) && TrimSpace(session) != t.machine.pending.session)
  {
    var sent := CommandFor(t.machine, session, op, objective);
    if sent.command.Some? && !Mutates(op) {
      assert sent.command.value != Flying(t.machine.pending) || !t.machine.pending.inFlight;
    }
  }

  lemma MutationResultStrands(t: Trace, c: Command, o: Outcome)
    requires Sound(t) && c in t.open && Mutates(c.operation)
    ensures Stranded(Step(t, Result(c, o))) <==> Stranded(t) || Strands(t, Result(c, o))
  {
    assert CommandSound(t, c);
    var p := t.machine.pending;
    if Current(t.machine, c) {
      FewerIsSound(t, c, t.machine.(pending := NOTHING));
      if o.Success? {
        MutationResultSends(t, c, o.goal);
        SendStrands(Idle(t, c), p.session, p.desiredOperation, p.desiredObjective, t.asked);
      }
    }
  }

  lemma ReadResultStrands(t: Trace, c: Command, o: Outcome)
    requires Sound(t) && c in t.open && !Mutates(c.operation)
    ensures var e := Result(c, o); Stranded(Step(t, e)) <==> Stranded(t) && !Frees(t, e)
  {
    var rest := t.(open := t.open - {c});
    FewerIsSound(t, c, t.machine);
    assert Stranded(rest) <==> Stranded(t);
    var asks := CheckAsks(t.machine, c, o);
    if asks != [] {
      if c.operation.CheckSet? {
        SendStrands(rest, t.machine.session, Set, c.objective, t.asked + asks);
      } else {
        SendStrands(rest, t.machine.session, Clear, "", t.asked + asks);
      }
    }
  }

  /** How each event begins and ends the state of waiting for an answer that will not come. */
  lemma StrandingStep(t: Trace, e: Event)
    requires Sound(t)
    ensures Stranded(Step(t, e)) <==> if Stranded(t) then !Frees(t, e) else Strands(t, e)
  {
    match e
    case Request(op, objective) => SendStrands(t, t.machine.session, op, objective, Step(t, e).asked);
    case Switch(_) =>
    case Result(c, o) =>
      if c in t.open {
        if Mutates(c.operation) {
          MutationResultStrands(t, c, o);
        } else {
          ReadResultStrands(t, c, o);
        }
      }
  }

  predicate NeverStranded(t: Trace, events: seq<Event>)
    decreases |events|
  {
    !Stranded(t) && (events != [] ==> NeverStranded(Step(t, events[0]), events[1..]))
  }

  predicate NeverStrands(t: Trace, events: seq<Event>)
    decreases |events|
  {
    events != [] ==> !Strands(t, events[0]) && NeverStrands(Step(t, events[0]), events[1..])
  }

  predicate NeverFrees(t: Trace, events: seq<Event>)
    decreases |events|
  {
    events != [] ==> !Frees(t, events[0]) && NeverFrees(Step(t, events[0]), events[1..])
  }

  lemma {:induction false} NeverStrandedFrom(t: Trace, events: seq<Event>)
    requires Sound(t) && !Stranded(t)
    ensures NeverStranded(t, events) <==> NeverStrands(t, events)
    decreases |events|
  {
    if events != [] {
      StrandingStep(t, events[0]);
      StepIsSound(t, events[0]);
      if !Stranded(Step(t, events[0])) {
        NeverStrandedFrom(Step(t, events[0]), events[1..]);
      }
    }
  }

  /**
   Through a whole run over any sessions, a mutation that waits always waits for an answer still to come, exactly when
   no answer to the mutation in flight comes while another session is on screen.
   */
  lemma WaitingEndsExactly(session: string, events: seq<Event>)
    ensures NeverStranded(Started(session), events) <==> NeverStrands(Started(session), events)
  {
    NeverStrandedFrom(Started(session), events);
  }

  /** A stranded machine sends no mutation. */
  lemma StrandedStepSendsNothing(t: Trace, e: Event)
    requires Sound(t) && Stranded(t) && !Frees(t, e)
    ensures var u := Step(t, e);
            && u.lastSent == t.lastSent && u.machine.pending.session == t.machine.pending.session
            && forall c :: c in u.open && Mutates(c.operation) ==> c in t.open
  {
    if e.Result? && e.command in t.open {
      assert CommandSound(t, e.command);
    }
  }

  /**
   Once stranded, and as long as mutations are asked for in the waiting session only, none is ever sent again: whatever
   else is asked for, answered or shown.
   */
  lemma {:induction false} StrandedForGood(t: Trace, events: seq<Event>)
    requires Sound(t) && Stranded(t) && NeverFrees(t, events)
    ensures var u := Follow(t, events);
            && Stranded(u) && u.lastSent == t.lastSent && u.machine.pending.session == t.machine.pending.session
            && forall c :: c in u.open && Mutates(c.operation) ==> c in t.open
    decreases |events|
  {
    if events != [] {
      StrandingStep(t, events[0]);
      StepIsSound(t, events[0]);
      StrandedStepSendsNothing(t, events[0]);
      StrandedForGood(Step(t, events[0]), events[1..]);
    }
  }

  lemma FollowFour(t: Trace, a: Event, b: Event, c: Event, d: Event)
    ensures Follow(t, [a, b, c, d]) == Step(Step(Step(Step(t, a), b), c), d)
  {
    assert [a, b, c, d][1..] == [b, c, d];
    FollowThree(Step(t, a), b, c, d);
  }

  /** Looking at another session while a mutation is answered strands the first: no command is out, and it waits. */
  lemma StrandingIsReachable(a: string, b: string, op: Operation, outcome: Outcome)
    requires TrimSpace(a) != "" && TrimSpace(b) != "" && TrimSpace(a) != TrimSpace(b) && Mutates(op)
    ensures var first := Command(1, TrimSpace(a), 1, op, "");
            var t := Follow(Started(a), [Request(op, ""), Switch(b), Result(first, outcome), Switch(a)]);
            Stranded(t) && t.open == {} && t.machine.session == a && t.machine.pending.session == TrimSpace(a)
  {
    var first := Command(1, TrimSpace(a), 1, op, "");
    FollowFour(Started(a), Request(op, ""), Switch(b), Result(first, outcome), Switch(a));
    var t1 := Step(Started(a), Request(op, ""));
    SendsAtOnce(Started(a), op);
    assert t1.open == {first};
    var t2 := Step(t1, Switch(b));
    assert !Current(t2.machine, first);
    assert Step(t2, Result(first, outcome)).open == {};
  }

  // --- Coming back to a session ---

  /** What can be seen from outside: the mutations sent, in order, and which of them were answered. */
  datatype Journal = Journal(sent: seq<Command>, answered: set<Command>)

  function SentBy(t: Trace, e: Event): Option<Command> {
    match e
    case Request(op, objective) => CommandFor(t.machine, t.machine.session, op, objective).command
    case Switch(_) => None
    case Result(c, o) => if c in t.open then Done(t.machine, c, o).command else None
  }

  function Answered(j: Journal, e: Event): Journal {
    if e.Result? && e.command in j.sent then j.(answered := j.answered + {e.command}) else j
  }

  function Recorded(j: Journal, t: Trace, e: Event): Journal {
    var c := SentBy(t, e);
    var k := Answered(j, e);
    if c.Some? && Mutates(c.value.operation) then k.(sent := k.sent + [c.value]) else k
  }

  /** The mutation was sent, and after it one for another session. */
  predicate Interrupted(sent: seq<Command>, c: Command) {
    exists i, k :: 0 <= i < k < |sent| && sent[i] == c && sent[k].session != c.session
  }

  /** A mutation is asked for in a session that has an unanswered one, and another session's was sent in between. */
  predicate Returns(j: Journal, t: Trace, e: Event) {
    && Mutating(t, e)
    && exists c :: c in j.sent && c !in j.answered && c.session == TrimSpace(t.machine.session) && Interrupted(j.sent, c)
  }

  predicate NeverReturns(j: Journal, t: Trace, events: seq<Event>)
    decreases |events|
  {
    events != [] ==> !Returns(j, t, events[0]) && NeverReturns(Recorded(j, t, events[0]), Step(t, events[0]), events[1..])
  }

  predicate Numbered(sent: seq<Command>, token: nat) {
    && (forall i :: 0 <= i < |sent| ==> sent[i].token <= token && Mutates(sent[i].operation))
    && (forall i, k :: 0 <= i < k < |sent| ==> sent[i].token < sent[k].token)
  }

  predicate Kept(j: Journal, open: set<Command>) {
    && (forall c :: c in open && Mutates(c.operation) ==> c in j.sent && c !in j.answered)
    && (forall c :: c in j.sent && c !in j.answered ==> c in open)
    && (forall c :: c in j.answered ==> c in j.sent)
  }

  predicate LastFlies(sent: seq<Command>, p: Pending) {
    p.inFlight ==> sent != [] && sent[|sent| - 1] == Flying(p)
  }

  /** An open mutation is the one in flight, or another session's was sent since. */
  predicate OthersInterrupted(sent: seq<Command>, open: set<Command>, p: Pending) {
    forall c :: c in open && Mutates(c.operation) && !(p.inFlight && c == Flying(p)) ==> Interrupted(sent, c)
  }

  /** The session that waits has no open mutation but the one in flight. */
  predicate Alone(open: set<Command>, p: Pending) {
    forall c :: c in open && Mutates(c.operation) && p.inFlight && c.session == p.session ==> c == Flying(p)
  }

  predicate Right(j: Journal, token: nat, open: set<Command>, p: Pending) {
    && Numbered(j.sent, token)
    && Kept(j, open)
    && LastFlies(j.sent, p)
    && OthersInterrupted(j.sent, open, p)
    && Alone(open, p)
  }

  predicate Journaled(j: Journal, t: Trace) {
    Right(j, t.machine.token, t.open, t.machine.pending)
  }

  lemma RevisitsAreReturns(j: Journal, t: Trace, e: Event)
    requires Journaled(j, t)
    ensures Revisits(t, e) <==> Returns(j, t, e)
  {
    var p := t.machine.pending;
    var s := TrimSpace(t.machine.session);
    if Revisits(t, e) {
      var c :| c in t.open && Mutates(c.operation) && c.session == s;
      assert Interrupted(j.sent, c);
    }
    if Returns(j, t, e) {
      var c :| c in j.sent && c !in j.answered && c.session == s && Interrupted(j.sent, c);
      assert c in t.open;
    }
  }

  /** More sent after it does not undo an interruption. */
  lemma InterruptedStays(sent: seq<Command>, c: Command, d: Command)
    requires Interrupted(sent, c)
    ensures Interrupted(sent + [d], c)
  {
    var i, k :| 0 <= i < k < |sent| && sent[i] == c && sent[k].session != c.session;
    assert (sent + [d])[i] == c && (sent + [d])[k] == sent[k];
  }

  lemma LastIsInterrupted(sent: seq<Command>, d: Command)
    requires sent != [] && d.session != sent[|sent| - 1].session
    ensures Interrupted(sent + [d], sent[|sent| - 1])
  {
    assert (sent + [d])[|sent| - 1] == sent[|sent| - 1] && (sent + [d])[|sent|] == d;
  }

  /** A mutation sent at once from a session with none open keeps the journal right. */
  lemma SendIsJournaled(j: Journal, t: Trace, d: Command, m: Machine)
    requires Sound(t) && Journaled(j, t)
    requires Mutates(d.operation) && !Occupied(t.open, d.session)
    requires t.machine.pending.inFlight ==> t.machine.pending.session != d.session
    requires m.token == d.token == t.machine.token + 1 && m.pending.inFlight && Flying(m.pending) == d
    ensures Journaled(j.(sent := j.sent + [d]), t.(machine := m, open := t.open + {d}))
  {
    var sent := j.sent + [d];
    var open := t.open + {d};
    var p := t.machine.pending;
    assert d !in j.sent && d !in j.answered;
    forall c | c in open && Mutates(c.operation) && c != d ensures Interrupted(sent, c) {
      if p.inFlight && c == Flying(p) {
        LastIsInterrupted(j.sent, d);
      } else {
        InterruptedStays(j.sent, c, d);
      }
    }
  }

  lemma AnswerIsJournaled(j: Journal, t: Trace, c: Command, m: Machine)
    requires Sound(t) && Journaled(j, t) && c in t.open && Mutates(c.operation)
    requires m.token == t.machine.token
    requires m.pending == t.machine.pending || (m.pending == NOTHING && t.machine.pending.inFlight && c == Flying(t.machine.pending))
    ensures c in j.sent && Journaled(j.(answered := j.answered + {c}), t.(open := t.open - {c}, machine := m))
  {
  }

  lemma RequestIsJournaled(j: Journal, t: Trace, session: string, op: Operation, objective: string, asked: seq<Ask>)
    requires Sound(t) && Journaled(j, t)
    requires Mutates(op) && Occupied(t.open, TrimSpace(session)) ==> Waits(t.machine, TrimSpace(session), op)
    ensures var sent := CommandFor(t.machine, session, op, objective);
            Journaled(if sent.command.Some? && Mutates(op) then j.(sent := j.sent + [sent.command.value]) else j,
                      Noted(t, sent, asked))
  {
    var sent := CommandFor(t.machine, session, op, objective);
    if sent.command.Some? && Mutates(op) {
      SendIsJournaled(j, t, sent.command.value, sent.machine);
    }
  }

  /** After a success: what was waiting is sent, from the idle state, and is what gets recorded. */
  lemma SuccessRecords(j: Journal, t: Trace, c: Command, goal: Option<Goal>)
    requires c in j.sent && c in t.open && Mutates(c.operation) && Current(t.machine, c) && t.machine.pending.inFlight
    ensures var p := t.machine.pending;
            var k := j.(answered := j.answered + {c});
            var sent := CommandFor(Idle(t, c).machine, p.session, p.desiredOperation, p.desiredObjective);
            var u := Step(t, Result(c, Success(goal)));
            var after := if NothingWaits(p) then Idle(t, c) else Noted(Idle(t, c), sent, t.asked);
            && u.machine.token == after.machine.token && u.open == after.open && u.machine.pending == after.machine.pending
            && Recorded(j, t, Result(c, Success(goal))) ==
               if !NothingWaits(p) && sent.command.Some? && Mutates(p.desiredOperation)
               then k.(sent := k.sent + [sent.command.value]) else k
  {
    MutationResultSends(t, c, goal);
  }

  lemma SuccessIsJournaled(j: Journal, t: Trace, c: Command, goal: Option<Goal>)
    requires Sound(t) && Journaled(j, t) && c in t.open && Mutates(c.operation) && Current(t.machine, c)
    requires t.machine.pending.inFlight && c == Flying(t.machine.pending)
    ensures Journaled(Recorded(j, t, Result(c, Success(goal))), Step(t, Result(c, Success(goal))))
  {
    var p := t.machine.pending;
    var k := j.(answered := j.answered + {c});
    AnswerIsJournaled(j, t, c, t.machine.(pending := NOTHING));
    FewerIsSound(t, c, t.machine.(pending := NOTHING));
    SuccessRecords(j, t, c, goal);
    assert !Occupied(Idle(t, c).open, p.session);
    RequestIsJournaled(k, Idle(t, c), p.session, p.desiredOperation, p.desiredObjective, t.asked);
  }

  lemma MutationResultIsJournaled(j: Journal, t: Trace, c: Command, o: Outcome)
    requires Sound(t) && Journaled(j, t) && c in t.open && Mutates(c.operation)
    ensures Journaled(Recorded(j, t, Result(c, o)), Step(t, Result(c, o)))
  {
    assert CommandSound(t, c);
    AnswerIsJournaled(j, t, c, t.machine);
    if Current(t.machine, c) {
      AnswerIsJournaled(j, t, c, t.machine.(pending := NOTHING));
      if o.Success? {
        SuccessIsJournaled(j, t, c, o.goal);
      }
    }
  }

  lemma CheckIsJournaled(j: Journal, t: Trace, c: Command, op: Operation, objective: string, asked: seq<Ask>)
    requires Sound(t) && Journaled(j, t) && c in t.open && !Mutates(c.operation) && Mutates(op)
    requires var s := TrimSpace(t.machine.session); Occupied(t.open, s) ==> Waits(t.machine, s, op)
    ensures var sent := CommandFor(t.machine, t.machine.session, op, objective);
            Journaled(if sent.command.Some? then j.(sent := j.sent + [sent.command.value]) else j,
                      Noted(t.(open := t.open - {c}), sent, asked))
  {
    FewerIsSound(t, c, t.machine);
    OccupiedAfterRead(t.open, c, TrimSpace(t.machine.session));
    RequestIsJournaled(j, t.(open := t.open - {c}), t.machine.session, op, objective, asked);
  }

  lemma QuietReadRecords(j: Journal, t: Trace, c: Command, o: Outcome)
    requires c in t.open && c !in j.sent && !Mutates(c.operation) && CheckAsks(t.machine, c, o) == []
    ensures var u := Step(t, Result(c, o));
            && u.machine.token == t.machine.token && u.open == t.open - {c} && u.machine.pending == t.machine.pending
            && Recorded(j, t, Result(c, o)) == j
  {
  }

  lemma CheckRecords(j: Journal, t: Trace, c: Command, o: Outcome)
    requires c in t.open && c !in j.sent && !Mutates(c.operation) && CheckAsks(t.machine, c, o) != []
    ensures var e := Result(c, o);
            var sent := CommandFor(t.machine, t.machine.session, Checked(c).operation, Checked(c).objective);
            && Step(t, e) == Noted(t.(open := t.open - {c}), sent, t.asked + CheckAsks(t.machine, c, o))
            && Recorded(j, t, e) == if sent.command.Some? then j.(sent := j.sent + [sent.command.value]) else j
  {
  }

  lemma ReadResultIsJournaled(j: Journal, t: Trace, c: Command, o: Outcome)
    requires Sound(t) && Journaled(j, t) && c in t.open && !Mutates(c.operation) && !Revisits(t, Result(c, o))
    ensures Journaled(Recorded(j, t, Result(c, o)), Step(t, Result(c, o)))
  {
    assert c !in j.sent;
    var asks := CheckAsks(t.machine, c, o);
    if asks == [] {
      QuietReadRecords(j, t, c, o);
    } else {
      CheckRecords(j, t, c, o);
      CheckIsJournaled(j, t, c, Checked(c).operation, Checked(c).objective, t.asked + asks);
    }
  }

  lemma StepIsJournaled(j: Journal, t: Trace, e: Event)
    requires Sound(t) && Journaled(j, t) && !Revisits(t, e)
    ensures Journaled(Recorded(j, t, e), Step(t, e))
  {
    match e
    case Request(op, objective) => RequestIsJournaled(j, t, t.machine.session, op, objective, Step(t, e).asked);
    case Switch(_) =>
    case Result(c, o) =>
      if c in t.open {
        if Mutates(c.operation) {
          MutationResultIsJournaled(j, t, c, o);
        } else {
          ReadResultIsJournaled(j, t, c, o);
        }
      } else {
        assert c in j.sent ==> c in j.answered;
        assert Answered(j, e) == j;
      }
  }

  lemma {:induction false} NeverReturnsFrom(j: Journal, t: Trace, events: seq<Event>)
    requires Sound(t) && Journaled(j, t)
    ensures NeverRevisits(t, events) <==> NeverReturns(j, t, events)
    decreases |events|
  {
    if events != [] {
      RevisitsAreReturns(j, t, events[0]);
      StepIsSound(t, events[0]);
      if !Revisits(t, events[0]) {
        StepIsJournaled(j, t, events[0]);
        NeverReturnsFrom(Recorded(j, t, events[0]), Step(t, events[0]), events[1..]);
      }
    }
  }

  /**
   Through a whole run over any sessions, no session ever has two mutations in flight, exactly when none is asked for in
   a session with an unanswered mutation after which one for another session was sent.
   */
  lemma SingleFlightExactlyWithoutReturns(session: string, events: seq<Event>)
    ensures AlwaysOneEach(Started(session), events) <==> NeverReturns(Journal([], {}), Started(session), events)
  {
    SingleFlightExactlyWithoutRevisits(session, events);
    NeverReturnsFrom(Journal([], {}), Started(session), events);
  }
}
