/** What holds in every run of the goal commands, and what depends on staying in one session. */
module GoalRuns {
  import opened Prelude
  import opened GoalMutations

  // --- Bookkeeping that every run keeps ---

  /** The command that is in flight according to the pending state. */
  function Flying(p: Pending): Command {
    Command(p.token, p.session, p.serial, p.operation, p.objective)
  }

  predicate CommandSound(t: Trace, c: Command) {
    && 1 <= c.token <= t.machine.token && c.serial <= t.machine.serial
    && Trimmed(c.session) && Trimmed(c.objective)
    && c.token in t.askedAt && (c.serial == t.machine.serial ==> t.askedAt[c.token] == |t.asked|)
    && (Mutates(c.operation) && c.token == t.machine.pending.token ==> c == Flying(t.machine.pending))
  }

  predicate PendingSound(m: Machine) {
    && m.pending.token <= m.token && m.pending.serial <= m.serial
    && (if m.pending.inFlight
        then && m.pending.token >= 1 && Mutates(m.pending.operation) && Mutates(m.pending.desiredOperation)
             && Trimmed(m.pending.session) && Trimmed(m.pending.desiredObjective)
        else m.pending == NOTHING)
  }

  predicate Sound(t: Trace) {
    && PendingSound(t.machine)
    && (forall c :: c in t.open ==> CommandSound(t, c))
    && (forall c, d :: c in t.open && d in t.open && c.token == d.token ==> c == d)
  }

  lemma SendIsSound(t: Trace, session: string, op: Operation, objective: string, asked: seq<Ask>)
    requires Sound(t)
    requires |asked| >= |t.asked| && (!Mutates(op) ==> asked == t.asked)
    ensures Sound(Noted(t, CommandFor(t.machine, session, op, objective), asked))
  {
    var u := Noted(t, CommandFor(t.machine, session, op, objective), asked);
    forall c | c in u.open ensures CommandSound(u, c) {
      if c in t.open {
        assert CommandSound(t, c);
      }
    }
    forall c, d | c in u.open && d in u.open && c.token == d.token ensures c == d {
      assert (c in t.open ==> CommandSound(t, c)) && (d in t.open ==> CommandSound(t, d));
    }
  }

  /** Dropping the pending state, or an open command, leaves the rest sound. */
  lemma FewerIsSound(t: Trace, c: Command, m: Machine)
    requires Sound(t) && c in t.open
    requires m.token == t.machine.token && m.serial == t.machine.serial
    requires m.pending == t.machine.pending || m.pending == NOTHING
    ensures Sound(t.(open := t.open - {c}, machine := m))
  {
    var u := t.(open := t.open - {c}, machine := m);
    forall d | d in u.open ensures CommandSound(u, d) {
      assert CommandSound(t, d);
    }
  }

  /** The answer leads to at most one more command, sent from a state that differs in display and pending only. */
  lemma ResultIsSound(t: Trace, c: Command, o: Outcome)
    requires Sound(t) && c in t.open
    ensures Sound(Step(t, Result(c, o)))
  {
    var m := t.machine;
    assert CommandSound(t, c);
    FewerIsSound(t, c, m);
    FewerIsSound(t, c, m.(pending := NOTHING));
    if Current(m, c) && o.Success? {
      if Mutates(c.operation) {
        MutationResultIsSound(t, c, o.goal);
      } else {
        ReadResultIsSound(t, c, o);
      }
    }
  }

  lemma DisplayIsSound(t: Trace, m: Machine)
    requires Sound(t) && m.token == t.machine.token && m.serial == t.machine.serial && m.pending == t.machine.pending
    ensures Sound(t.(machine := m))
  {
    var u := t.(machine := m);
    forall d | d in u.open ensures CommandSound(u, d) {
      assert CommandSound(t, d);
    }
  }

  /** A display that changes with an answer does not matter to what is noted. */
  lemma NotedDisplay(t: Trace, sent: Sent, m: Machine, asked: seq<Ask>)
    ensures Noted(t, Sent(m, sent.command), asked) == Noted(t, sent, asked).(machine := m)
  {
  }

  lemma FollowUpIsSound(t: Trace, c: Command)
    requires Sound(t) && c in t.open
    ensures Sound(Noted(t.(open := t.open - {c}), FollowUp(t.machine), t.asked))
  {
    var m := t.machine;
    var idle := t.(open := t.open - {c}, machine := m.(pending := NOTHING));
    FewerIsSound(t, c, m);
    FewerIsSound(t, c, m.(pending := NOTHING));
    SendIsSound(idle, m.pending.session, m.pending.desiredOperation, m.pending.desiredObjective, t.asked);
  }

  /** A mutation's answer sends what was waiting; besides, it changes only what is shown and the question put. */
  lemma MutationDoneSends(m: Machine, c: Command, goal: Option<Goal>)
    ensures var d, next := MutationDone(m, c, goal), FollowUp(m);
            && d.command == next.command
            && d.machine == next.machine.(shown := d.machine.shown, confirmation := d.machine.confirmation)
  {
  }

  lemma MutationResultSteps(t: Trace, c: Command, goal: Option<Goal>)
    requires c in t.open && Current(t.machine, c) && Mutates(c.operation)
    ensures var u := Noted(t.(open := t.open - {c}), FollowUp(t.machine), t.asked);
            var m := MutationDone(t.machine, c, goal).machine;
            && Step(t, Result(c, Success(goal))) == u.(machine := m)
            && m == u.machine.(shown := m.shown, confirmation := m.confirmation)
  {
    assert t.asked + [] == t.asked;
    MutationDoneSends(t.machine, c, goal);
    NotedDisplay(t.(open := t.open - {c}), FollowUp(t.machine), MutationDone(t.machine, c, goal).machine, t.asked);
  }

  lemma MutationResultIsSound(t: Trace, c: Command, goal: Option<Goal>)
    requires Sound(t) && c in t.open && Current(t.machine, c) && Mutates(c.operation)
    ensures Sound(Step(t, Result(c, Success(goal))))
  {
    FollowUpIsSound(t, c);
    MutationResultSteps(t, c, goal);
    DisplayIsSound(Noted(t.(open := t.open - {c}), FollowUp(t.machine), t.asked), MutationDone(t.machine, c, goal).machine);
  }

  /** What a check is for: the mutation it goes on to. */
  function Checked(c: Command): Ask {
    Ask("", if c.operation.CheckSet? then Set else Clear, if c.operation.CheckSet? then c.objective else "")
  }

  lemma QuietRead(t: Trace, c: Command, o: Outcome)
    requires c in t.open && !Mutates(c.operation) && CheckAsks(t.machine, c, o) == []
    ensures var m, u := t.machine, Step(t, Result(c, o));
            && u == t.(open := t.open - {c}, machine := u.machine)
            && u.machine == m.(shown := u.machine.shown, confirmation := u.machine.confirmation, failed := u.machine.failed)
  {
    assert t.asked + [] == t.asked;
  }

  lemma CheckGoesOn(t: Trace, c: Command, o: Outcome)
    requires c in t.open && !Mutates(c.operation) && CheckAsks(t.machine, c, o) != []
    ensures var ask := Checked(c);
            && Step(t, Result(c, o)) == Noted(t.(open := t.open - {c}),
                                              CommandFor(t.machine, t.machine.session, ask.operation, ask.objective),
                                              t.asked + CheckAsks(t.machine, c, o))
            && CheckAsks(t.machine, c, o) == [Ask(TrimSpace(t.machine.session), ask.operation, TrimSpace(ask.objective))]
  {
  }

  lemma ReadResultIsSound(t: Trace, c: Command, o: Outcome)
    requires Sound(t) && c in t.open && !Mutates(c.operation)
    ensures Sound(Step(t, Result(c, o)))
  {
    var rest := t.(open := t.open - {c});
    FewerIsSound(t, c, t.machine);
    if CheckAsks(t.machine, c, o) == [] {
      QuietRead(t, c, o);
      DisplayIsSound(rest, Step(t, Result(c, o)).machine);
    } else {
      CheckGoesOn(t, c, o);
      SendIsSound(rest, t.machine.session, Checked(c).operation, Checked(c).objective, t.asked + CheckAsks(t.machine, c, o));
    }
  }

  lemma StepIsSound(t: Trace, e: Event)
    requires Sound(t)
    ensures Sound(Step(t, e))
  {
    match e
    case Request(op, objective) => SendIsSound(t, t.machine.session, op, objective, Step(t, e).asked);
    case Switch(session) => DisplayIsSound(t, t.machine.(session := session));
    case Result(c, o) => if c in t.open { ResultIsSound(t, c, o); }
  }

  lemma {:induction false} RunIsSound(t: Trace, events: seq<Event>)
    requires Sound(t)
    ensures Sound(Follow(t, events))
    decreases |events|
  {
    if events != [] {
      StepIsSound(t, events[0]);
      RunIsSound(Step(t, events[0]), events[1..]);
    }
  }

  /** The result does something: it is shown, it fails on screen, or it goes on to a question or a mutation. */
  predicate TakesEffect(m: Machine, c: Command, o: Outcome) {
    var quiet := m.(failed := false);
    Done(quiet, c, o) != Sent(quiet, None)
  }

  predicate AskedBefore(t: Trace) {
    forall k :: k in t.askedAt ==> t.askedAt[k] <= |t.asked|
  }

  lemma {:induction false} RunAskedBefore(t: Trace, events: seq<Event>)
    requires AskedBefore(t)
    ensures AskedBefore(Follow(t, events))
    decreases |events|
  {
    if events != [] {
      assert AskedBefore(Step(t, events[0]));
      RunAskedBefore(Step(t, events[0]), events[1..]);
    }
  }

  /**
   In every run, through any sessions, errors and late answers: a read overtaken by a mutation, one asked for after the
   read was sent, changes nothing when it succeeds. When it fails it still reports its failure, exactly if nothing was
   sent since and the session on screen is its own.
   */
  lemma ReadTakesEffectOnlyWhenCurrent(session: string, events: seq<Event>, c: Command, o: Outcome)
    requires c in Follow(Started(session), events).open && !Mutates(c.operation)
    ensures var t := Follow(Started(session), events);
            && c.token in t.askedAt && t.askedAt[c.token] <= |t.asked|
            && (t.askedAt[c.token] < |t.asked| ==>
                  (TakesEffect(t.machine, c, o) <==> o.Failure? && c.token == t.machine.token && InSession(t.machine, c)))
  {
    RunIsSound(Started(session), events);
    RunAskedBefore(Started(session), events);
    assert CommandSound(Follow(Started(session), events), c);
  }

  /** The event sends a command; a mutation that has to wait does not. */
  predicate Sends(t: Trace, e: Event) {
    var m := t.machine;
    match e
    case Request(op, _) => !Waits(m, TrimSpace(m.session), op)
    case Switch(_) => false
    case Result(c, o) =>
      && c in t.open && Current(m, c) && o.Success?
      && (if Mutates(c.operation) then m.pending.inFlight && !NothingWaits(m.pending)
          else CheckAsks(m, c, o) != [] && !Waits(m, TrimSpace(m.session), Set))
  }

  predicate NeverSends(t: Trace, events: seq<Event>)
    decreases |events|
  {
    events != [] ==> !Sends(t, events[0]) && NeverSends(Step(t, events[0]), events[1..])
  }

  predicate NothingWaits(p: Pending) {
    p.desiredOperation == p.operation && p.desiredObjective == p.objective
  }

  lemma SendingTakesAToken(m: Machine, session: string, op: Operation, objective: string)
    ensures CommandFor(m, session, op, objective).machine.token
         == m.token + if Waits(m, TrimSpace(session), op) then 0 else 1
  {
  }

  lemma ResultTakesAToken(t: Trace, c: Command, o: Outcome)
    requires c in t.open
    ensures Step(t, Result(c, o)).machine.token == t.machine.token + if Sends(t, Result(c, o)) then 1 else 0
  {
    var m := t.machine;
    if Current(m, c) && o.Success? {
      if Mutates(c.operation) {
        assert MutationDone(m, c, o.goal).machine.token == FollowUp(m).machine.token;
        SendingTakesAToken(m.(pending := NOTHING), m.pending.session, m.pending.desiredOperation,
                           m.pending.desiredObjective);
      } else {
        SendingTakesAToken(m, m.session, Set, c.objective);
        SendingTakesAToken(m, m.session, Clear, "");
      }
    }
  }

  lemma StepTakesAToken(t: Trace, e: Event)
    ensures Step(t, e).machine.token == t.machine.token + if Sends(t, e) then 1 else 0
  {
    match e
    case Request(op, objective) => SendingTakesAToken(t.machine, t.machine.session, op, objective);
    case Switch(_) =>
    case Result(c, o) => if c in t.open { ResultTakesAToken(t, c, o); }
  }

  lemma {:induction false} RunTokens(t: Trace, events: seq<Event>)
    ensures Follow(t, events).machine.token >= t.machine.token
    ensures Follow(t, events).machine.token == t.machine.token <==> NeverSends(t, events)
    decreases |events|
  {
    if events != [] {
      StepTakesAToken(t, events[0]);
      RunTokens(Step(t, events[0]), events[1..]);
    }
  }

  /**
   A read is sent after any run, and any events follow. Its failure is heeded exactly when none of these events sent
   anything, which leaves only mutations that waited behind one in flight, and the session on screen is the read's.
   */
  lemma FailedReadIsHeededExactly(session: string, before: seq<Event>, op: Operation, objective: string,
                                  after: seq<Event>)
    requires !Mutates(op)
    ensures var t := Follow(Started(session), before);
            var read := CommandFor(t.machine, t.machine.session, op, objective).command.value;
            var sent := Step(t, Request(op, objective));
            var later := Follow(sent, after).machine;
            TakesEffect(later, read, Failure) <==> NeverSends(sent, after) && InSession(later, read)
  {
    var t := Follow(Started(session), before);
    RunTokens(Step(t, Request(op, objective)), after);
  }

  lemma FollowThree(t: Trace, a: Event, b: Event, c: Event)
    ensures Follow(t, [a, b, c]) == Step(Step(Step(t, a), b), c)
  {
    var first, second := Step(t, a), Step(Step(t, a), b);
    assert [a, b, c][1..] == [b, c] && [b, c][1..] == [c] && [c][1..] == [];
    assert Follow(second, [c]) == Follow(Step(second, c), []) == Step(second, c);
    assert Follow(first, [b, c]) == Follow(second, [c]);
    assert Follow(t, [a, b, c]) == Follow(first, [b, c]);
  }

  /** A failed read is heeded although a mutation was asked for, and waits, since the read was sent. */
  lemma OvertakenFailureIsReachable()
    ensures var t := Follow(Started("s"), [Request(Pause, ""), Request(Show, ""), Request(Resume, "")]);
            var read := Command(2, "s", 1, Show, "");
            && read in t.open && t.askedAt[2] < |t.asked|
            && TakesEffect(t.machine, read, Failure)
            && forall goal :: !TakesEffect(t.machine, read, Success(goal))
  {
    FollowThree(Started("s"), Request(Pause, ""), Request(Show, ""), Request(Resume, ""));
    var t1 := Step(Started("s"), Request(Pause, ""));
    assert t1.machine.pending == Pending(1, "s", true, 1, Pause, "", Pause, "");
  }

  // --- What the answers to reads lead to ---

  /** The answer is to the read last sent, in the session on screen, and no mutation was filed since it was sent. */
  predicate Answers(m: Machine, c: Command) {
    && c.token == m.token && c.serial == m.serial
    && (c.session == "" || TrimSpace(m.session) == "" || c.session == TrimSpace(m.session))
  }

  /** A goal is shown exactly as the current read found it, and nothing else is done. */
  lemma ShowIsShown(t: Trace, c: Command, goal: Option<Goal>)
    requires c in t.open && c.operation.Show? && Answers(t.machine, c)
    ensures var u := Step(t, Result(c, Success(goal)));
            && u.machine == t.machine.(shown := goal, failed := false)
            && u.open == t.open - {c} && u.asked == t.asked && u.lastSent == t.lastSent
  {
    assert t.asked + [] == t.asked;
  }

  /**
   The answer to a current check: if a goal is running, the user is asked about that goal, and nothing is sent. Otherwise
   the mutation is asked for at once, in the session on screen, and no question is put.
   */
  lemma ChecksAskOrGoOn(t: Trace, c: Command, goal: Option<Goal>)
    requires c in t.open && (c.operation.CheckSet? || c.operation.CheckClear?) && Answers(t.machine, c)
    ensures var u := Step(t, Result(c, Success(goal)));
            var s := TrimSpace(t.machine.session);
            var ask := Checked(c);
            if goal.Some? && goal.value.active then
              && u.open == t.open - {c} && u.asked == t.asked && u.lastSent == t.lastSent
              && u.machine == t.machine.(confirmation := Some(Confirmation(ask.operation, goal, ask.objective)))
            else
              && u.asked == t.asked + [Ask(s, ask.operation, TrimSpace(ask.objective))]
              && u.machine.confirmation == t.machine.confirmation && u.machine.shown == t.machine.shown
              && (if t.machine.pending.inFlight && t.machine.pending.session == s then
                    && u.open == t.open - {c}
                    && u.machine.pending.desiredOperation == ask.operation
                    && u.machine.pending.desiredObjective == TrimSpace(ask.objective)
                  else
                    u.open == t.open - {c} +
                    {Command(t.machine.token + 1, s, t.machine.serial + 1, ask.operation, TrimSpace(ask.objective))})
  {
    assert t.asked + [] == t.asked;
  }

  /** A mutation's success shows the goal it answers with, where it has one, and closes the question it was for. */
  lemma MutationIsShown(t: Trace, c: Command, goal: Option<Goal>)
    requires c in t.open && Mutates(c.operation)
    requires c.token == t.machine.pending.token && c.serial == t.machine.pending.serial
    requires c.session == "" || TrimSpace(t.machine.session) == "" || c.session == TrimSpace(t.machine.session)
    ensures var u := Step(t, Result(c, Success(goal))).machine;
            && u.shown == (match c.operation
                           case Set => goal
                           case Clear => t.machine.shown
                           case _ => if goal.Some? then goal else t.machine.shown)
            && u.confirmation == (if c.operation.Set? || c.operation.Clear? then None else t.machine.confirmation)
  {
  }

  /** A failure is reported and changes neither the goal shown nor the question. */
  lemma FailureIsReported(t: Trace, c: Command)
    requires c in t.open && Current(t.machine, c)
    ensures var u := Step(t, Result(c, Failure)).machine;
            u.failed && u.shown == t.machine.shown && u.confirmation == t.machine.confirmation
  {
  }

  /** What is sent for a request is what was requested, trimmed, for the session on screen; reads never wait. */
  lemma RequestIsSent(t: Trace, op: Operation, objective: string)
    ensures var u := Step(t, Request(op, objective));
            var s := TrimSpace(t.machine.session);
            var mutates := op in {Set, Pause, Resume, Complete, Clear};
            && u.asked == (if mutates then t.asked + [Ask(s, op, TrimSpace(objective))] else t.asked)
            && (if mutates && t.machine.pending.inFlight && t.machine.pending.session == s then
                  && u.open == t.open && u.machine.pending.desiredOperation == op
                  && u.machine.pending.desiredObjective == TrimSpace(objective)
                else
                  u.open == t.open +
                  {Command(t.machine.token + 1, s, t.machine.serial + if mutates then 1 else 0, op, TrimSpace(objective))})
  {
  }

  // --- One mutation in flight per session ---

  predicate OneEach(open: set<Command>) {
    forall c, d :: c in open && d in open && Mutates(c.operation) && Mutates(d.operation) && c.session == d.session ==>
                     c == d
  }

  predicate Occupied(open: set<Command>, session: string) {
    exists c :: c in open && Mutates(c.operation) && c.session == session
  }

  /** The event asks, on the user's behalf or after a check, for a mutation in the session on screen. */
  predicate Mutating(t: Trace, e: Event) {
    match e
    case Request(op, _) => Mutates(op)
    case Result(c, o) => c in t.open && !Mutates(c.operation) && CheckAsks(t.machine, c, o) != []
    case Switch(_) => false
  }

  /** A mutation is asked for in a session that still has one in flight, while the machine tracks another session. */
  predicate Revisits(t: Trace, e: Event) {
    var s := TrimSpace(t.machine.session);
    Mutating(t, e) && Occupied(t.open, s) && !(t.machine.pending.inFlight && t.machine.pending.session == s)
  }

  lemma OccupiedAfterRead(open: set<Command>, c: Command, session: string)
    requires !Mutates(c.operation)
    ensures Occupied(open - {c}, session) <==> Occupied(open, session)
    ensures OneEach(open - {c}) <==> OneEach(open)
  {
    if Occupied(open, session) {
      var d :| d in open && Mutates(d.operation) && d.session == session;
      assert d in open - {c};
    }
    if OneEach(open - {c}) {
      forall d, e | d in open && e in open && Mutates(d.operation) && Mutates(e.operation) && d.session == e.session
        ensures d == e
      {
        assert d in open - {c} && e in open - {c};
      }
    }
  }

  /** Sending a mutation keeps one per session exactly when its session had none. */
  lemma AddMutation(open: set<Command>, c: Command)
    requires OneEach(open) && Mutates(c.operation) && c !in open
    ensures OneEach(open + {c}) <==> !Occupied(open, c.session)
  {
    if Occupied(open, c.session) {
      var d :| d in open && Mutates(d.operation) && d.session == c.session;
      assert d in open + {c} && c in open + {c} && d != c;
    }
  }

  lemma AddRead(open: set<Command>, c: Command)
    requires !Mutates(c.operation)
    ensures OneEach(open + {c}) <==> OneEach(open)
  {
    assert open <= open + {c};
    if OneEach(open + {c}) {
      forall d, e | d in open && e in open && Mutates(d.operation) && Mutates(e.operation) && d.session == e.session
        ensures d == e
      {
        assert d in open + {c} && e in open + {c};
      }
    }
  }

  lemma OpenTokensAreOld(t: Trace)
    requires Sound(t)
    ensures forall c :: c in t.open ==> c.token <= t.machine.token
  {
    forall c | c in t.open ensures c.token <= t.machine.token {
      assert CommandSound(t, c);
    }
  }

  lemma SendKeepsOneEach(t: Trace, session: string, op: Operation, objective: string, asked: seq<Ask>)
    requires Sound(t) && OneEach(t.open)
    ensures var u := Noted(t, CommandFor(t.machine, session, op, objective), asked);
            OneEach(u.open) <==>
            !(Mutates(op) && Occupied(t.open, TrimSpace(session)) && !Waits(t.machine, TrimSpace(session), op))
  {
    var sent := CommandFor(t.machine, session, op, objective);
    if sent.command.Some? {
      var c := sent.command.value;
      OpenTokensAreOld(t);
      if Mutates(op) {
        AddMutation(t.open, c);
      } else {
        AddRead(t.open, c);
      }
    }
  }

  lemma MutationResultKeepsOneEach(t: Trace, c: Command, o: Outcome)
    requires Sound(t) && OneEach(t.open) && c in t.open && Mutates(c.operation)
    ensures OneEach(Step(t, Result(c, o)).open)
  {
    var rest := t.(open := t.open - {c});
    assert CommandSound(t, c);
    assert OneEach(rest.open);
    if Current(t.machine, c) && o.Success? {
      var p := t.machine.pending;
      assert c == Flying(p) && c.session == p.session;
      assert !Occupied(rest.open, c.session);
      FewerIsSound(t, c, t.machine.(pending := NOTHING));
      SendKeepsOneEach(rest.(machine := t.machine.(pending := NOTHING)), p.session, p.desiredOperation,
                       p.desiredObjective, t.asked);
    }
  }

  lemma ReadResultKeepsOneEach(t: Trace, c: Command, o: Outcome)
    requires Sound(t) && OneEach(t.open) && c in t.open && !Mutates(c.operation)
    ensures OneEach(Step(t, Result(c, o)).open) <==> !Revisits(t, Result(c, o))
  {
    var rest := t.(open := t.open - {c});
    var s := TrimSpace(t.machine.session);
    OccupiedAfterRead(t.open, c, s);
    FewerIsSound(t, c, t.machine);
    if CheckAsks(t.machine, c, o) != [] {
      var asked := t.asked + CheckAsks(t.machine, c, o);
      if c.operation.CheckSet? {
        SendKeepsOneEach(rest, t.machine.session, Set, c.objective, asked);
      } else {
        SendKeepsOneEach(rest, t.machine.session, Clear, "", asked);
      }
    }
  }

  /** A step keeps one mutation per session exactly when it does not revisit. */
  lemma StepKeepsOneEach(t: Trace, e: Event)
    requires Sound(t) && OneEach(t.open)
    ensures OneEach(Step(t, e).open) <==> !Revisits(t, e)
  {
    match e
    case Request(op, objective) => SendKeepsOneEach(t, t.machine.session, op, objective, Step(t, e).asked);
    case Switch(session) =>
    case Result(c, o) =>
      if c in t.open {
        if Mutates(c.operation) {
          MutationResultKeepsOneEach(t, c, o);
        } else {
          ReadResultKeepsOneEach(t, c, o);
        }
      }
  }

  predicate AlwaysOneEach(t: Trace, events: seq<Event>)
    decreases |events|
  {
    OneEach(t.open) && (events != [] ==> AlwaysOneEach(Step(t, events[0]), events[1..]))
  }

  predicate NeverRevisits(t: Trace, events: seq<Event>)
    decreases |events|
  {
    events != [] ==> !Revisits(t, events[0]) && NeverRevisits(Step(t, events[0]), events[1..])
  }

  lemma {:induction false} OneEachFrom(t: Trace, events: seq<Event>)
    requires Sound(t) && OneEach(t.open)
    ensures AlwaysOneEach(t, events) <==> NeverRevisits(t, events)
    decreases |events|
  {
    if events != [] {
      StepKeepsOneEach(t, events[0]);
      StepIsSound(t, events[0]);
      if OneEach(Step(t, events[0]).open) {
        OneEachFrom(Step(t, events[0]), events[1..]);
      }
    }
  }

  /** Through a whole run no session has two mutations in flight, exactly when no step revisits a busy session. */
  lemma SingleFlightExactlyWithoutRevisits(session: string, events: seq<Event>)
    ensures AlwaysOneEach(Started(session), events) <==> NeverRevisits(Started(session), events)
  {
    OneEachFrom(Started(session), events);
  }

  lemma SendsAtOnce(t: Trace, op: Operation)
    requires Mutates(op) && !Waits(t.machine, TrimSpace(t.machine.session), op)
    ensures var s := TrimSpace(t.machine.session);
            var u := Step(t, Request(op, ""));
            && u.open == t.open + {Command(t.machine.token + 1, s, t.machine.serial + 1, op, "")}
            && u.machine.session == t.machine.session
            && u.machine.pending.session == s
  {
  }

  /** Leaving a session with a mutation in flight, mutating elsewhere and coming back puts two in flight. */
  lemma RevisitIsReachable(a: string, b: string, x: Operation, y: Operation, z: Operation)
    requires TrimSpace(a) != TrimSpace(b) && Mutates(x) && Mutates(y) && Mutates(z)
    ensures var t := Step(Step(Step(Step(Step(Started(a), Request(x, "")), Switch(b)), Request(y, "")), Switch(a)),
                          Request(z, ""));
            !OneEach(t.open)
  {
    var t1 := Step(Started(a), Request(x, ""));
    SendsAtOnce(Started(a), x);
    var t2 := Step(t1, Switch(b));
    var t3 := Step(t2, Request(y, ""));
    SendsAtOnce(t2, y);
    var t4 := Step(t3, Switch(a));
    var t5 := Step(t4, Request(z, ""));
    SendsAtOnce(t4, z);
    var first := Command(1, TrimSpace(a), 1, x, "");
    var again := Command(t4.machine.token + 1, TrimSpace(a), t4.machine.serial + 1, z, "");
    assert first in t5.open && again in t5.open && first != again;
  }

  // --- Within one session ---

  predicate Stays(e: Event, s: string) {
    e.Switch? ==> TrimSpace(e.session) == s
  }

  /** The machine waits exactly while a mutation is in flight, and that is the only one. */
  predicate Tracked(t: Trace, s: string) {
    && TrimSpace(t.machine.session) == s
    && (forall c :: c in t.open ==> c.session == s)
    && (forall c :: c in t.open && Mutates(c.operation) ==> t.machine.pending.inFlight && c == Flying(t.machine.pending))
    && (t.machine.pending.inFlight ==> Flying(t.machine.pending) in t.open && t.machine.pending.session == s)
  }

  /** What was last asked for is what was last sent, or what will be sent next. */
  predicate UpToDate(t: Trace) {
    var p := t.machine.pending;
    if t.asked == [] then !p.inFlight
    else
      var last := t.asked[|t.asked| - 1];
      if p.inFlight then
        && t.lastSent == Some(Ask(p.session, p.operation, p.objective))
        && last == Ask(p.session, p.desiredOperation, p.desiredObjective)
      else t.lastSent == Some(last)
  }

  lemma SendIsTracked(t: Trace, session: string, op: Operation, objective: string, asked: seq<Ask>, s: string)
    requires Sound(t) && Tracked(t, s) && TrimSpace(session) == s
    ensures Tracked(Noted(t, CommandFor(t.machine, session, op, objective), asked), s)
  {
  }

  /** A mutation asked for in the session becomes the last one asked for. */
  lemma SendIsUpToDate(t: Trace, session: string, op: Operation, objective: string, s: string)
    requires Tracked(t, s) && TrimSpace(session) == s && Mutates(op)
    requires t.machine.pending.inFlight ==> UpToDate(t)
    ensures UpToDate(Noted(t, CommandFor(t.machine, session, op, objective),
                           t.asked + [Ask(s, op, TrimSpace(objective))]))
  {
  }

  /** The state a mutation's result is dealt with in: the command is off the list and nothing is pending. */
  function Idle(t: Trace, c: Command): Trace {
    t.(open := t.open - {c}, machine := t.machine.(pending := NOTHING))
  }

  lemma IdleIsTracked(t: Trace, c: Command, s: string)
    requires Sound(t) && Tracked(t, s) && c in t.open && Mutates(c.operation)
    ensures Sound(Idle(t, c)) && Tracked(Idle(t, c), s) && Current(t.machine, c)
  {
    FewerIsSound(t, c, t.machine.(pending := NOTHING));
    assert CommandSound(t, c) && c == Flying(t.machine.pending);
  }

  /** After a success, what was waiting is sent from the idle state; the rest is display. */
  lemma MutationResultSends(t: Trace, c: Command, goal: Option<Goal>)
    requires Current(t.machine, c) && c in t.open && Mutates(c.operation) && t.machine.pending.inFlight
    ensures var p := t.machine.pending;
            var u := Step(t, Result(c, Success(goal)));
            var sent := if NothingWaits(p) then Sent(Idle(t, c).machine, None)
                        else CommandFor(Idle(t, c).machine, p.session, p.desiredOperation, p.desiredObjective);
            u == Noted(Idle(t, c), sent, t.asked).(machine := u.machine)
            && u.machine.pending == sent.machine.pending && u.machine.session == t.machine.session
  {
    MutationResultSteps(t, c, goal);
  }

  lemma MutationResultIsTracked(t: Trace, c: Command, o: Outcome, s: string)
    requires Sound(t) && Tracked(t, s) && c in t.open && Mutates(c.operation)
    ensures Tracked(Step(t, Result(c, o)), s)
  {
    IdleIsTracked(t, c, s);
    if o.Success? {
      var p := t.machine.pending;
      MutationResultSends(t, c, o.goal);
      SendIsTracked(Idle(t, c), p.session, p.desiredOperation, p.desiredObjective, t.asked, s);
    }
  }

  lemma MutationResultIsUpToDate(t: Trace, c: Command, goal: Option<Goal>, s: string)
    requires Sound(t) && Tracked(t, s) && UpToDate(t) && c in t.open && Mutates(c.operation)
    ensures UpToDate(Step(t, Result(c, Success(goal))))
  {
    IdleIsTracked(t, c, s);
    MutationResultSends(t, c, goal);
  }

  lemma RestIsTracked(t: Trace, c: Command, s: string)
    requires Sound(t) && Tracked(t, s) && c in t.open && !Mutates(c.operation)
    ensures var rest := t.(open := t.open - {c}); Sound(rest) && Tracked(rest, s) && (UpToDate(t) ==> UpToDate(rest))
  {
    FewerIsSound(t, c, t.machine);
  }

  /** Tracking does not depend on what is shown or asked. */
  lemma DisplayIsTracked(t: Trace, m: Machine, s: string)
    requires Tracked(t, s) && m.session == t.machine.session && m.pending == t.machine.pending
    ensures Tracked(t.(machine := m), s) && (UpToDate(t) ==> UpToDate(t.(machine := m)))
  {
  }

  lemma ReadResultIsTracked(t: Trace, c: Command, o: Outcome, s: string)
    requires Sound(t) && Tracked(t, s) && c in t.open && !Mutates(c.operation)
    ensures Tracked(Step(t, Result(c, o)), s)
    ensures UpToDate(t) ==> UpToDate(Step(t, Result(c, o)))
  {
    var rest := t.(open := t.open - {c});
    RestIsTracked(t, c, s);
    var asks := CheckAsks(t.machine, c, o);
    if asks == [] {
      QuietRead(t, c, o);
      DisplayIsTracked(rest, Step(t, Result(c, o)).machine, s);
    } else {
      CheckGoesOn(t, c, o);
      SendIsTracked(rest, t.machine.session, Checked(c).operation, Checked(c).objective, t.asked + asks, s);
      if UpToDate(t) {
        SendIsUpToDate(rest, t.machine.session, Checked(c).operation, Checked(c).objective, s);
      }
    }
  }

  predicate Succeeds(e: Event) {
    e.Result? && Mutates(e.command.operation) ==> e.outcome.Success?
  }

  lemma StepIsTracked(t: Trace, e: Event, s: string)
    requires Sound(t) && Tracked(t, s) && Stays(e, s)
    ensures Tracked(Step(t, e), s)
    ensures UpToDate(t) && Succeeds(e) ==> UpToDate(Step(t, e))
  {
    match e
    case Request(op, objective) =>
      SendIsTracked(t, t.machine.session, op, objective, Step(t, e).asked, s);
      if Mutates(op) && UpToDate(t) {
        SendIsUpToDate(t, t.machine.session, op, objective, s);
      }
    case Switch(session) =>
    case Result(c, o) =>
      if c in t.open {
        if Mutates(c.operation) {
          MutationResultIsTracked(t, c, o, s);
          if UpToDate(t) && o.Success? {
            MutationResultIsUpToDate(t, c, o.goal, s);
          }
        } else {
          ReadResultIsTracked(t, c, o, s);
        }
      }
  }

  lemma {:induction false} RunIsTracked(t: Trace, events: seq<Event>, s: string)
    requires Sound(t) && Tracked(t, s) && forall i :: 0 <= i < |events| ==> Stays(events[i], s)
    ensures Tracked(Follow(t, events), s)
    ensures UpToDate(t) && (forall i :: 0 <= i < |events| ==> Succeeds(events[i])) ==> UpToDate(Follow(t, events))
    decreases |events|
  {
    if events != [] {
      StepIsSound(t, events[0]);
      StepIsTracked(t, events[0], s);
      RunIsTracked(Step(t, events[0]), events[1..], s);
    }
  }

  /**
   Within one session, whatever is asked for and however answers come: at most one mutation is in flight, and the
   machine waits exactly while there is one. If no mutation fails, then once none is in flight the mutation last sent is
   the one last asked for.
   */
  lemma MutationsCoalesce(session: string, events: seq<Event>)
    requires forall i :: 0 <= i < |events| ==> Stays(events[i], TrimSpace(session))
    ensures var t := Follow(Started(session), events);
            && (forall c, d :: c in t.open && d in t.open && Mutates(c.operation) && Mutates(d.operation) ==> c == d)
            && (t.machine.pending.inFlight <==> exists c :: c in t.open && Mutates(c.operation))
    ensures var t := Follow(Started(session), events);
            (forall i :: 0 <= i < |events| ==> Succeeds(events[i])) && !t.machine.pending.inFlight && t.asked != [] ==>
              t.lastSent == Some(t.asked[|t.asked| - 1])
  {
    var t := Follow(Started(session), events);
    RunIsSound(Started(session), events);
    RunIsTracked(Started(session), events, TrimSpace(session));
    if t.machine.pending.inFlight {
      assert Flying(t.machine.pending) in t.open;
    }
  }

  /** A failed mutation leaves the machine up to date exactly when nothing was waiting behind it. */
  lemma FailureDropsTheWaiting(t: Trace, c: Command, s: string)
    requires Sound(t) && Tracked(t, s) && UpToDate(t) && c in t.open && Mutates(c.operation)
    ensures var p := t.machine.pending;
            UpToDate(Step(t, Result(c, Failure))) <==> NothingWaits(p)
    ensures !Step(t, Result(c, Failure)).machine.pending.inFlight
  {
    assert CommandSound(t, c);
    assert t.asked + [] == t.asked;
  }

  /** A mutation fails while another waits behind it. */
  predicate DropsWaiting(t: Trace, e: Event) {
    && e.Result? && e.command in t.open && Mutates(e.command.operation) && e.outcome.Failure?
    && !NothingWaits(t.machine.pending)
  }

  /** Once nothing is in flight, the mutation last asked for is the one last sent. */
  predicate Settled(t: Trace) {
    !t.machine.pending.inFlight && t.asked != [] ==> t.lastSent == Some(t.asked[|t.asked| - 1])
  }

  predicate AlwaysSettled(t: Trace, events: seq<Event>)
    decreases |events|
  {
    Settled(t) && (events != [] ==> AlwaysSettled(Step(t, events[0]), events[1..]))
  }

  predicate NeverDrops(t: Trace, events: seq<Event>)
    decreases |events|
  {
    events != [] ==> !DropsWaiting(t, events[0]) && NeverDrops(Step(t, events[0]), events[1..])
  }

  lemma StepSettles(t: Trace, e: Event, s: string)
    requires Sound(t) && Tracked(t, s) && UpToDate(t) && Stays(e, s)
    ensures UpToDate(Step(t, e)) <==> !DropsWaiting(t, e)
    ensures DropsWaiting(t, e) ==> !Settled(Step(t, e))
  {
    if e.Result? && e.command !in t.open {
      assert Step(t, e) == t;
    } else if e.Result? && Mutates(e.command.operation) && e.outcome.Failure? {
      FailureDropsTheWaiting(t, e.command, s);
    } else {
      StepIsTracked(t, e, s);
    }
  }

  lemma {:induction false} SettledFrom(t: Trace, events: seq<Event>, s: string)
    requires Sound(t) && Tracked(t, s) && UpToDate(t) && forall i :: 0 <= i < |events| ==> Stays(events[i], s)
    ensures AlwaysSettled(t, events) <==> NeverDrops(t, events)
    decreases |events|
  {
    if events != [] {
      StepSettles(t, events[0], s);
      if !DropsWaiting(t, events[0]) {
        StepIsSound(t, events[0]);
        StepIsTracked(t, events[0], s);
        SettledFrom(Step(t, events[0]), events[1..], s);
      }
    }
  }

  /**
   Through a whole run in one session: whenever nothing is in flight, the mutation last sent is the one last asked for,
   exactly when no mutation fails while another waits behind it.
   */
  lemma LastAskedIsSentExactly(session: string, events: seq<Event>)
    requires forall i :: 0 <= i < |events| ==> Stays(events[i], TrimSpace(session))
    ensures AlwaysSettled(Started(session), events) <==> NeverDrops(Started(session), events)
  {
    SettledFrom(Started(session), events, TrimSpace(session));
  }

  /** A failure with a mutation waiting behind it can come about, and then the last mutation asked for is never sent. */
  lemma DroppedMutationIsReachable()
    ensures var first := Command(1, "s", 1, Pause, "");
            var t := Follow(Started("s"), [Request(Pause, ""), Request(Resume, ""), Result(first, Failure)]);
            && t.open == {} && !t.machine.pending.inFlight
            && t.asked == [Ask("s", Pause, ""), Ask("s", Resume, "")] && t.lastSent == Some(Ask("s", Pause, ""))
  {
    var first := Command(1, "s", 1, Pause, "");
    FollowThree(Started("s"), Request(Pause, ""), Request(Resume, ""), Result(first, Failure));
    var t1 := Step(Started("s"), Request(Pause, ""));
    assert t1.open == {first} && t1.machine.pending == Pending(1, "s", true, 1, Pause, "", Pause, "");
    var t2 := Step(t1, Request(Resume, ""));
    assert t2.open == {first} && t2.machine.pending == Pending(1, "s", true, 1, Pause, "", Resume, "");
    assert t2.asked + [] == t2.asked;
  }
}
