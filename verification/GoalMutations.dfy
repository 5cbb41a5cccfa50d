/**
 Goal commands of the terminal client: reads and mutations sent to the runtime, where a mutation asked for while one is
 in flight waits, only the latest is kept, and results that are no longer current are dropped.
 */
module GoalMutations {
  import opened Prelude

  datatype Operation = Show | CheckSet | CheckClear | Set | Pause | Resume | Complete | Clear

  predicate Mutates(op: Operation) {
    op.Set? || op.Pause? || op.Resume? || op.Complete? || op.Clear?
  }

  /** A goal as a read returns it; active is the running status alone, and a paused goal is not active. */
  datatype Goal = Goal(objective: string, active: bool)

  datatype Pending = Pending(
    token: nat,
    session: string,
    inFlight: bool,
    serial: nat,
    operation: Operation,
    objective: string,
    desiredOperation: Operation,
    desiredObjective: string)

  const NOTHING := Pending(0, "", false, 0, Show, "", Show, "")

  /** A question put to the user before a goal is replaced or cleared. */
  datatype Confirmation = Confirmation(operation: Operation, goal: Option<Goal>, objective: string)

  datatype Machine = Machine(
    token: nat,
    serial: nat,
    pending: Pending,
    session: string,
    shown: Option<Goal>,
    confirmation: Option<Confirmation>,
    failed: bool)

  datatype Command = Command(token: nat, session: string, serial: nat, operation: Operation, objective: string)

  datatype Outcome = Failure | Success(goal: Option<Goal>)

  /** A machine and the command a step sent, if it sent one. */
  datatype Sent = Sent(machine: Machine, command: Option<Command>)

  // --- Asking ---

  function Begun(m: Machine, session: string, op: Operation, objective: string): Machine {
    var token := m.token + 1;
    if !Mutates(op) then m.(token := token)
    else
      m.(token := token, serial := m.serial + 1,
         pending := Pending(token, session, true, m.serial + 1, op, objective, op, objective))
  }

  /** A mutation waits while one for its session is in flight; everything else is sent at once. */
  predicate Waits(m: Machine, session: string, op: Operation) {
    Mutates(op) && m.pending.inFlight && m.pending.session == session
  }

  function Filed(m: Machine, session: string, op: Operation, objective: string): Machine {
    if Waits(m, session, op) then
      m.(serial := m.serial + 1, pending := m.pending.(desiredOperation := op, desiredObjective := objective))
    else Begun(m, session, op, objective)
  }

  function CommandFor(m: Machine, session: string, op: Operation, objective: string): Sent {
    var s := TrimSpace(session);
    var text := TrimSpace(objective);
    var filed := Filed(m, s, op, text);
    Sent(filed, if Waits(m, s, op) then None else Some(Command(filed.token, s, filed.serial, op, text)))
  }

  // --- Results ---

  /** The result is for the session on screen, or either of them is unnamed. */
  predicate InSession(m: Machine, c: Command) {
    c.session == "" || TrimSpace(m.session) == "" || c.session == TrimSpace(m.session)
  }

  predicate Current(m: Machine, c: Command) {
    && (if Mutates(c.operation) then c.token == m.pending.token && c.serial == m.pending.serial else c.token == m.token)
    && InSession(m, c)
  }

  function FollowUp(m: Machine): Sent {
    var p := m.pending;
    if !p.inFlight then Sent(m, None)
    else if p.desiredOperation == p.operation && p.desiredObjective == p.objective then Sent(m.(pending := NOTHING), None)
    else CommandFor(m.(pending := NOTHING), p.session, p.desiredOperation, p.desiredObjective)
  }

  predicate IsActive(goal: Option<Goal>) {
    goal.Some? && goal.value.active
  }

  function MutationDone(m: Machine, c: Command, goal: Option<Goal>): Sent {
    var next := FollowUp(m);
    match c.operation
    case Set => Sent(next.machine.(shown := goal, confirmation := None), next.command)
    case Clear => Sent(next.machine.(confirmation := None), next.command)
    case _ => if goal.Some? then Sent(next.machine.(shown := goal), next.command) else next
  }

  function ReadDone(m: Machine, c: Command, goal: Option<Goal>): Sent {
    if c.serial != m.serial then Sent(m, None)
    else
      match c.operation
      case CheckSet =>
        if IsActive(goal) then Sent(m.(confirmation := Some(Confirmation(Set, goal, c.objective))), None)
        else CommandFor(m, m.session, Set, c.objective)
      case CheckClear =>
        if IsActive(goal) then Sent(m.(confirmation := Some(Confirmation(Clear, goal, ""))), None)
        else CommandFor(m, m.session, Clear, "")
      case _ => Sent(m.(shown := goal, failed := false), None)
  }

  function Done(m: Machine, c: Command, o: Outcome): Sent {
    if !Current(m, c) then Sent(m, None)
    else if o.Failure? then Sent(m.(pending := if Mutates(c.operation) then NOTHING else m.pending, failed := true), None)
    else if Mutates(c.operation) then MutationDone(m, c, o.goal)
    else ReadDone(m, c, o.goal)
  }

  // --- Runs ---

  datatype Ask = Ask(session: string, operation: Operation, objective: string)

  /**
   The machine with what an observer remembers: the commands whose results are still to come, every mutation asked for,
   the mutation last sent, and how many had been asked for when each command was sent.
   */
  datatype Trace = Trace(
    machine: Machine,
    open: set<Command>,
    asked: seq<Ask>,
    lastSent: Option<Ask>,
    askedAt: map<nat, nat>)

  datatype Event =
    | Request(operation: Operation, objective: string)
    | Switch(session: string)
    | Result(command: Command, outcome: Outcome)

  function Noted(t: Trace, sent: Sent, asked: seq<Ask>): Trace {
    if sent.command.None? then t.(machine := sent.machine, asked := asked)
    else
      var c := sent.command.value;
      t.(machine := sent.machine, open := t.open + {c}, asked := asked, askedAt := t.askedAt[c.token := |asked|],
         lastSent := if Mutates(c.operation) then Some(Ask(c.session, c.operation, c.objective)) else t.lastSent)
  }

  /** The mutation a successful check goes on to ask for by itself. */
  function CheckAsks(m: Machine, c: Command, o: Outcome): seq<Ask> {
    if !Current(m, c) || o.Failure? || c.serial != m.serial then []
    else if c.operation.CheckSet? && !IsActive(o.goal) then [Ask(TrimSpace(m.session), Set, TrimSpace(c.objective))]
    else if c.operation.CheckClear? && !IsActive(o.goal) then [Ask(TrimSpace(m.session), Clear, TrimSpace(""))]
    else []
  }

  function Step(t: Trace, e: Event): Trace {
    var m := t.machine;
    match e
    case Request(op, objective) =>
      Noted(t, CommandFor(m, m.session, op, objective),
            if Mutates(op) then t.asked + [Ask(TrimSpace(m.session), op, TrimSpace(objective))] else t.asked)
    case Switch(session) => t.(machine := m.(session := session))
    case Result(c, o) =>
      if c !in t.open then t else Noted(t.(open := t.open - {c}), Done(m, c, o), t.asked + CheckAsks(m, c, o))
  }

  function Follow(t: Trace, events: seq<Event>): Trace
    decreases |events|
  {
    if events == [] then t else Follow(Step(t, events[0]), events[1..])
  }

  function Started(session: string): Trace {
    Trace(Machine(0, 0, NOTHING, session, None, None, false), {}, [], None, map[])
  }

  // --- The client's fields ---

  class GoalClient {
    var goalRuntimeToken: nat
    var goalRuntimeMutationSerial: nat
    var goalRuntimePending: Pending
    var session: string
    var shown: Option<Goal>
    var confirmation: Option<Confirmation>
    var failed: bool

    function State(): Machine
      reads this
    {
      Machine(goalRuntimeToken, goalRuntimeMutationSerial, goalRuntimePending, session, shown, confirmation, failed)
    }

    constructor (session: string)
      ensures State() == Started(session).machine
    {
      goalRuntimeToken, goalRuntimeMutationSerial, goalRuntimePending := 0, 0, NOTHING;
      this.session, shown, confirmation, failed := session, None, None, false;
    }

    /** Files a command; the token is for a command to send now, if there is one. */
    method BeginMutation(op: Operation, session: string, objective: string) returns (token: Option<nat>)
      modifies this
      ensures State() == Filed(old(State()), session, op, objective)
      ensures token.None? <==> Waits(old(State()), session, op)
      ensures token.Some? ==> token.value == goalRuntimeToken
    {
      if !Mutates(op) {
        goalRuntimeToken := goalRuntimeToken + 1;
        return Some(goalRuntimeToken);
      }
      if goalRuntimePending.inFlight && goalRuntimePending.session == session {
        goalRuntimeMutationSerial := goalRuntimeMutationSerial + 1;
        goalRuntimePending := goalRuntimePending.(desiredOperation := op);
        goalRuntimePending := goalRuntimePending.(desiredObjective := objective);
        return None;
      }
      goalRuntimeMutationSerial := goalRuntimeMutationSerial + 1;
      goalRuntimeToken := goalRuntimeToken + 1;
      goalRuntimePending := Pending(goalRuntimeToken, session, true, goalRuntimeMutationSerial, op, objective, op, objective);
      token := Some(goalRuntimeToken);
    }

    method SendFor(session: string, op: Operation, objective: string) returns (command: Option<Command>)
      modifies this
      ensures Sent(State(), command) == CommandFor(old(State()), session, op, objective)
    {
      var s := TrimSpace(session);
      var text := TrimSpace(objective);
      var token := BeginMutation(op, s, text);
      if token.None? {
        return None;
      }
      command := Some(Command(token.value, s, goalRuntimeMutationSerial, op, text));
    }

    method TakeFollowUp() returns (command: Option<Command>)
      modifies this
      ensures Sent(State(), command) == FollowUp(old(State()))
    {
      var pending := goalRuntimePending;
      if !pending.inFlight {
        return None;
      }
      goalRuntimePending := NOTHING;
      if pending.desiredOperation == pending.operation && pending.desiredObjective == pending.objective {
        return None;
      }
      command := SendFor(pending.session, pending.desiredOperation, pending.desiredObjective);
    }

    method ApplyMutation(c: Command, goal: Option<Goal>) returns (command: Option<Command>)
      requires Mutates(c.operation)
      modifies this
      ensures Sent(State(), command) == MutationDone(old(State()), c, goal)
    {
      command := TakeFollowUp();
      if c.operation == Set {
        shown := goal;
        confirmation := None;
      } else if c.operation == Clear {
        confirmation := None;
      } else if goal.Some? {
        shown := goal;
      }
    }

    method ApplyRead(c: Command, goal: Option<Goal>) returns (command: Option<Command>)
      requires !Mutates(c.operation)
      modifies this
      ensures Sent(State(), command) == ReadDone(old(State()), c, goal)
    {
      command := None;
      if c.serial != goalRuntimeMutationSerial {
        return;
      }
      if c.operation == CheckSet {
        if IsActive(goal) {
          confirmation := Some(Confirmation(Set, goal, c.objective));
        } else {
          command := SendFor(session, Set, c.objective);
        }
      } else if c.operation == CheckClear {
        if IsActive(goal) {
          confirmation := Some(Confirmation(Clear, goal, ""));
        } else {
          command := SendFor(session, Clear, "");
        }
      } else {
        shown := goal;
        failed := false;
      }
    }

    method ApplyDone(c: Command, o: Outcome) returns (command: Option<Command>)
      modifies this
      ensures Sent(State(), command) == Done(old(State()), c, o)
    {
      command := None;
      if Mutates(c.operation) {
        if c.token != goalRuntimePending.token || c.serial != goalRuntimePending.serial {
          return;
        }
      } else if c.token != goalRuntimeToken {
        return;
      }
      if c.session != "" && TrimSpace(session) != "" && c.session != TrimSpace(session) {
        return;
      }
      match o {
        case Failure =>
          if Mutates(c.operation) {
            goalRuntimePending := NOTHING;
          }
          failed := true;
        case Success(goal) =>
          if Mutates(c.operation) {
            command := ApplyMutation(c, goal);
          } else {
            command := ApplyRead(c, goal);
          }
      }
    }
  }
}
