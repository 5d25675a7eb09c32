/**
  The rotation state machine of a session (crates/silta-session/src/rotation.rs).

  `Machine` is the machine's value and the functions on it say what each call does;
  `Tracker` is the object the supervisor holds, whose methods update its fields in place
  and are proved against those functions. Instants and durations are natural numbers of
  one unit.
 */
module Rotation {
  import opened Prelude

  datatype Limits = Limits(
    enabled: bool,
    contextTokens: nat,
    idle: nat,
    quiet: nat,
    handoff: nat,
    compact: nat,
    retryPause: nat)

  /** How often a rotation may try before the session is replaced. */
  const HANDOFF_ATTEMPTS: nat := 2

  /** Where an attempt stood when it was given up. */
  datatype Step = Wait | HandoffTurn | Compaction

  datatype Action =
    | MarkPending
    | Snapshot(moment: Moment)
    | RequestHandoff
    | AwaitHandoff
    | Compact
    | AwaitCompaction
    | Compacted
    | Retry(step: Step, attempts: nat, handoff: bool)
    | Postpone(step: Step, attempts: nat, handoff: bool)
    | GiveUp(step: Step, cut: bool, handoff: bool)

  datatype Phase =
    | Idle
    | Waiting(deadline: nat)
    | Handoff(deadline: nat)
    | Compacting(deadline: nat, boundary: bool, failed: bool)

  /** The events that are read from Claude Code's output (crates/silta-session/src/stream.rs). */
  datatype Event =
    | Assistant(subagent: bool, contextTokens: Option<nat>, synthetic: bool)
    | User(person: bool)
    | Result(isError: bool, person: bool)
    | BackgroundTasks(ids: seq<string>)
    | Boundary(auto: bool)
    | CompactionFailed
    | ContextUsage(ours: bool, maxTokens: Option<nat>)
    | ModelFallback(fatal: bool)
    | Other

  datatype Machine = Machine(
    limits: Limits,
    turn: bool,
    agents: set<string>,
    context: nat,
    lastPerson: nat,
    pending: bool,
    notBefore: Option<nat>,
    attempts: nat,
    handoff: bool,
    noteWritten: bool,
    phase: Phase)
  {
    predicate Quiet() {
      !turn && agents == {}
    }

    /** The pause after a failed attempt is still on. */
    predicate Paused(now: nat) {
      notBefore.Some? && now < notBefore.value
    }

    /** No rotation any more: everything it kept is forgotten. */
    function Done(): Machine {
      this.(pending := false, notBefore := None, attempts := 0, handoff := false, phase := Idle)
    }

    predicate ThresholdTripped(now: nat) {
      && limits.enabled && !pending && phase.Idle? && !turn
      && context >= limits.contextTokens
      && Max(0, now - lastPerson) >= limits.idle
    }
  }

  /** The machine after a call and what the supervisor should do. */
  datatype Reply = Reply(machine: Machine, actions: seq<Action>)

  function NewMachine(limits: Limits, now: nat): Machine {
    Machine(limits, true, {}, 0, now, false, None, 0, false, true, Idle)
  }

  /** A start that found the marker. */
  function StartPending(m: Machine, now: nat, notBefore: Option<nat>, attempts: nat, handoff: bool): Machine {
    if !m.limits.enabled then m
    else
      var from := if notBefore.Some? then Max(notBefore.value, now) else now;
      m.(pending := true, notBefore := notBefore, attempts := attempts, handoff := handoff,
         phase := Waiting(from + m.limits.quiet))
  }

  /** A start whose first line already asks for the handoff. */
  function StartRetrying(m: Machine, now: nat, attempts: nat, handoff: bool): Machine {
    m.(pending := true, attempts := attempts, handoff := handoff, phase := Handoff(now + m.limits.handoff))
  }

  function SetPending(m: Machine, now: nat): Machine {
    if m.pending then m else m.(pending := true, phase := Waiting(now + m.limits.quiet))
  }

  /** An attempt ran out of time: the session is to be started again for the next one, or given up. */
  function Cut(m: Machine, step: Step): Reply {
    var m' := m.(phase := Idle, attempts := m.attempts + 1);
    Reply(m', [if m'.attempts < HANDOFF_ATTEMPTS then Retry(step, m'.attempts, m'.handoff)
               else GiveUp(step, true, m'.handoff)])
  }

  /** An attempt ended in an error: the next one waits out a pause, if there is one left. */
  function Failed(m: Machine, step: Step, now: nat): Reply {
    var m' := m.(phase := Idle, attempts := m.attempts + 1);
    if m'.attempts < HANDOFF_ATTEMPTS then
      Reply(m'.(notBefore := Some(now + m.limits.retryPause)), [Postpone(step, m'.attempts, m'.handoff)])
    else
      Reply(m', [GiveUp(step, false, m'.handoff)])
  }

  function Advance(m: Machine, now: nat): Reply {
    match m.phase
    case Idle => Reply(m, [])
    case Waiting(deadline) =>
      if m.Paused(now) then Reply(m, [])
      else if m.Quiet() then
        Reply(m.(phase := Handoff(now + m.limits.handoff)),
              if m.attempts == 0 then [Snapshot(BeforeHandoff), RequestHandoff] else [RequestHandoff])
      else if now >= deadline then Cut(m, Wait)
      else Reply(m, [])
    case Handoff(deadline) =>
      if now >= deadline then Cut(m, HandoffTurn) else Reply(m, [])
    case Compacting(deadline, _, _) =>
      if now >= deadline then Cut(m, Compaction) else Reply(m, [])
  }

  /** The machine after it has taken note of an event, before it advances. */
  function Noted(m: Machine, event: Event, now: nat): Machine {
    match event
    case Assistant(subagent, tokens, synthetic) =>
      m.(turn := true, context := if !subagent && !synthetic && tokens.Some? then tokens.value else m.context)
    case User(person) =>
      m.(turn := true, lastPerson := if person then now else m.lastPerson)
    case Result(_, person) =>
      m.(turn := false, lastPerson := if person then now else m.lastPerson)
    case BackgroundTasks(ids) =>
      m.(agents := set id | id in ids)
    case Boundary(auto) =>
      m.(context := 0, phase := if !auto && m.phase.Compacting? then m.phase.(boundary := true) else m.phase)
    case CompactionFailed =>
      m.(phase := if m.phase.Compacting? then m.phase.(failed := true) else m.phase)
    case _ => m
  }

  /** The end of a turn while the handoff or the compaction is awaited. */
  function TurnEnd(m: Machine, isError: bool, now: nat): Reply
    requires m.phase.Handoff? || m.phase.Compacting?
  {
    if m.phase.Handoff? then
      if !isError && !m.noteWritten then Reply(m, [AwaitHandoff])
      else if isError then Failed(m, HandoffTurn, now)
      else Reply(m.(handoff := true, phase := Compacting(now + m.limits.compact, false, false)),
                 [Snapshot(AfterHandoff), Compact])
    else if m.phase.boundary then Reply(m.Done(), [Compacted])
    else if m.phase.failed || isError then Failed(m, Compaction, now)
    else Reply(m, [AwaitCompaction])
  }

  function OnEvent(m: Machine, event: Event, now: nat): Reply {
    var n := Noted(m, event, now);
    if event.Result? && (m.phase.Handoff? || m.phase.Compacting?) then TurnEnd(n, event.isError, now)
    else Advance(n, now)
  }

  function OnTick(m: Machine, now: nat): Reply {
    if m.ThresholdTripped(now) then
      var r := Advance(SetPending(m, now), now);
      Reply(r.machine, [MarkPending] + r.actions)
    else Advance(m, now)
  }

  function OnMarker(m: Machine, now: nat): Reply {
    if !m.limits.enabled then Reply(m, []) else Advance(SetPending(m, now), now)
  }

  predicate Cancels(m: Machine) {
    m.pending && m.phase.Waiting?
  }

  // ------------------------------------------------------------------------------------
  // The object

  class Tracker {
    const limits: Limits
    var turn: bool
    var agents: set<string>
    var context: nat
    var lastPerson: nat
    var pending: bool
    var notBefore: Option<nat>
    var attempts: nat
    var handoff: bool
    var noteWritten: bool
    var phase: Phase

    function State(): Machine
      reads this
    {
      Machine(limits, turn, agents, context, lastPerson, pending, notBefore, attempts, handoff, noteWritten, phase)
    }

    /** The first turn of the session is taken to be running. */
    constructor (limits: Limits, now: nat)
      ensures State() == NewMachine(limits, now)
    {
      this.limits := limits;
      turn, agents, context, lastPerson := true, {}, 0, now;
      pending, notBefore, attempts, handoff, noteWritten := false, None, 0, false, true;
      phase := Idle;
    }

    method BeginPending(now: nat, notBefore: Option<nat>, attempts: nat, handoff: bool)
      modifies this
      ensures State() == StartPending(old(State()), now, notBefore, attempts, handoff)
    {
      if !limits.enabled {
        return;
      }
      pending := true;
      this.notBefore := notBefore;
      this.attempts := attempts;
      this.handoff := handoff;
      var from := if notBefore.Some? then Max(notBefore.value, now) else now;
      phase := Waiting(from + limits.quiet);
    }

    method BeginRetrying(now: nat, attempts: nat, handoff: bool)
      modifies this
      ensures State() == StartRetrying(old(State()), now, attempts, handoff)
    {
      pending := true;
      this.attempts := attempts;
      this.handoff := handoff;
      phase := Handoff(now + limits.handoff);
    }

    method SetNoteWritten(written: bool)
      modifies this`noteWritten
      ensures State() == old(State()).(noteWritten := written)
    {
      noteWritten := written;
    }

    /** Calls a rotation off, if it has not asked for the handoff yet. */
    method Cancel() returns (cancelled: bool)
      modifies this
      ensures cancelled == Cancels(old(State()))
      ensures State() == if cancelled then old(State()).Done() else old(State())
    {
      if !pending || !phase.Waiting? {
        return false;
      }
      Finish();
      return true;
    }

    method Finish()
      modifies this
      ensures State() == old(State()).Done()
    {
      pending := false;
      notBefore := None;
      attempts := 0;
      handoff := false;
      phase := Idle;
    }

    method MarkerSeen(now: nat) returns (actions: seq<Action>)
      modifies this
      ensures Reply(State(), actions) == OnMarker(old(State()), now)
    {
      if !limits.enabled {
        return [];
      }
      BecomePending(now);
      actions := Proceed(now);
    }

    /** A turn ends while the handoff or the compaction is awaited. */
    method EndTurn(isError: bool, now: nat) returns (actions: seq<Action>)
      requires phase.Handoff? || phase.Compacting?
      modifies this
      ensures Reply(State(), actions) == TurnEnd(old(State()), isError, now)
    {
      hide Failed;
      match phase {
        case Handoff(_) =>
          if !isError && !noteWritten {
            return [AwaitHandoff];
          }
          if isError {
            actions := Fail(HandoffTurn, now);
            return;
          }
          handoff := true;
          phase := Compacting(now + limits.compact, false, false);
          return [Snapshot(AfterHandoff), Compact];
        case Compacting(_, boundary, failed) =>
          if boundary {
            Finish();
            return [Compacted];
          }
          if failed || isError {
            actions := Fail(Compaction, now);
            return;
          }
          return [AwaitCompaction];
      }
    }

    method HandleEvent(event: Event, now: nat) returns (actions: seq<Action>)
      modifies this
      ensures Reply(State(), actions) == OnEvent(old(State()), event, now)
    {
      hide Advance, TurnEnd;
      match event {
        case Assistant(subagent, tokens, synthetic) =>
          turn := true;
          if !subagent && !synthetic && tokens.Some? {
            context := tokens.value;
          }
        case User(person) =>
          turn := true;
          if person {
            lastPerson := now;
          }
        case Result(isError, person) =>
          turn := false;
          if person {
            lastPerson := now;
          }
          if phase.Handoff? || phase.Compacting? {
            actions := EndTurn(isError, now);
            return;
          }
        case BackgroundTasks(ids) =>
          agents := set id | id in ids;
        case Boundary(auto) =>
          context := 0;
          if !auto && phase.Compacting? {
            phase := phase.(boundary := true);
          }
        case CompactionFailed =>
          if phase.Compacting? {
            phase := phase.(failed := true);
          }
        case _ =>
      }
      actions := Proceed(now);
    }

    method Tick(now: nat) returns (actions: seq<Action>)
      modifies this
      ensures Reply(State(), actions) == OnTick(old(State()), now)
    {
      actions := [];
      if limits.enabled && !pending && phase.Idle? && !turn
         && context >= limits.contextTokens && Max(0, now - lastPerson) >= limits.idle {
        BecomePending(now);
        actions := [MarkPending];
      }
      var more := Proceed(now);
      actions := actions + more;
    }

    method BecomePending(now: nat)
      modifies this
      ensures State() == SetPending(old(State()), now)
    {
      if !pending {
        pending := true;
        phase := Waiting(now + limits.quiet);
      }
    }

    method Proceed(now: nat) returns (actions: seq<Action>)
      modifies this
      ensures Reply(State(), actions) == Advance(old(State()), now)
    {
      actions := [];
      match phase {
        case Idle =>
        case Waiting(deadline) =>
          if notBefore.Some? && now < notBefore.value {
          } else if !turn && agents == {} {
            phase := Handoff(now + limits.handoff);
            actions := if attempts == 0 then [Snapshot(BeforeHandoff), RequestHandoff] else [RequestHandoff];
          } else if now >= deadline {
            actions := CutShort(Wait);
          }
        case Handoff(deadline) =>
          if now >= deadline {
            actions := CutShort(HandoffTurn);
          }
        case Compacting(deadline, _, _) =>
          if now >= deadline {
            actions := CutShort(Compaction);
          }
      }
    }

    method CutShort(step: Step) returns (actions: seq<Action>)
      modifies this
      ensures Reply(State(), actions) == Cut(old(State()), step)
    {
      phase := Idle;
      attempts := attempts + 1;
      if attempts < HANDOFF_ATTEMPTS {
        actions := [Retry(step, attempts, handoff)];
      } else {
        actions := [GiveUp(step, true, handoff)];
      }
    }

    method Fail(step: Step, now: nat) returns (actions: seq<Action>)
      modifies this
      ensures Reply(State(), actions) == Failed(old(State()), step, now)
    {
      phase := Idle;
      attempts := attempts + 1;
      if attempts < HANDOFF_ATTEMPTS {
        notBefore := Some(now + limits.retryPause);
        actions := [Postpone(step, attempts, handoff)];
      } else {
        actions := [GiveUp(step, false, handoff)];
      }
    }
  }
}
