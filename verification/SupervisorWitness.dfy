/**
  A run of the supervisor in which a rotation goes all the way: so what is said of handoffs and
  compactions in safe histories is said of something that happens.
 */
module SupervisorWitness {
  import opened Prelude
  import opened Rotation
  import opened History
  import opened Supervisor
  import opened SupervisorSafety

  const LIMITS := Limits(true, 100, 10, 50, 60, 70, 5)
  const CONFIG := Config(LIMITS, None, 1, NoEmergency)
  const ON_DISK := Disk(Some("id"), true, Normal, {"id"})
  const BEFORE := State(Down, false, ON_DISK, Book([], Nothing, true))
  const TURN_ENDS := Result(false, false)

  /** The tracker while the rotation goes on. */
  function Tracking(turn: bool, handoff: bool, phase: Phase): Machine {
    NewMachine(LIMITS, 0).(turn := turn, pending := true, handoff := handoff, phase := phase)
  }

  /** A run under way, past its first line, with its tracker at `m`. */
  predicate InRun(s: State, ready: bool, m: Machine) {
    && s.proc.Running? && s.proc.cfg == CONFIG && s.proc.run.tracker == m && s.proc.run.ready == ready
    && s.proc.run.stdin && !s.proc.run.stopping && s.proc.run.after.None? && s.proc.run.intro.None?
  }

  const INPUTS: seq<Input> := [
    Boot(CONFIG), Plan("new", 0, true),
    Hear(Assistant(false, None, false), false, 1), Hear(TURN_ENDS, false, 2), Hear(TURN_ENDS, true, 3),
    Hear(Boundary(false), false, 4), Hear(TURN_ENDS, false, 5)]

  lemma Starts()
    ensures InRun(Transition(Transition(BEFORE, INPUTS[0]), INPUTS[1]), false, Tracking(true, false, Waiting(50)))
  {
    hide Extend, Allowed;
    var s := Transition(BEFORE, INPUTS[0]);
    assert s.disk == ON_DISK && s.proc == Between(CONFIG, None) && !s.stopRequested;
    assert PlanStart(s, "new") == Planned(s, Start("id", true, Resumed, 0, false, false));
  }

  lemma Speaks(s: State)
    requires InRun(s, false, Tracking(true, false, Waiting(50)))
    ensures InRun(Transition(s, INPUTS[2]), true, Tracking(true, false, Waiting(50)))
  {
    hide Extend, Allowed;
  }

  lemma Asked(s: State)
    requires InRun(s, true, Tracking(true, false, Waiting(50)))
    ensures InRun(Transition(s, INPUTS[3]), true, Tracking(false, false, Handoff(62)))
  {
    hide Extend, Allowed;
    var t := Emit(s, HeardLine(TURN_ENDS, false, false));
    var reply := OnEvent(t.proc.run.tracker, TURN_ENDS, 2);
    assert reply == Reply(Tracking(false, false, Handoff(62)), [Snapshot(BeforeHandoff), RequestHandoff]);
    assert Transition(s, INPUTS[3]) == Follow(t, 2, reply);
    ActBoth(WithRun(t, t.proc.run.(tracker := reply.machine)), 2, Snapshot(BeforeHandoff), RequestHandoff);
  }

  lemma Written(s: State)
    requires InRun(s, true, Tracking(false, false, Handoff(62)))
    ensures InRun(Transition(s, INPUTS[4]), true, Tracking(false, true, Compacting(73, false, false)))
  {
    hide Extend, Allowed;
  }

  lemma Bounded(s: State)
    requires InRun(s, true, Tracking(false, true, Compacting(73, false, false)))
    ensures InRun(Transition(s, INPUTS[5]), true, Tracking(false, true, Compacting(73, true, false)))
  {
    hide Extend, Allowed;
  }

  lemma Over(s: State)
    requires InRun(s, true, Tracking(false, true, Compacting(73, true, false)))
    ensures RotationOver(ByCompaction) in Transition(s, INPUTS[6]).book.log
  {
    hide Extend, Allowed;
  }

  /** A rotation can finish with its compaction. */
  lemma ARotationFinishes()
    ensures Initially(BEFORE) && RotationOver(ByCompaction) in Execute(BEFORE, INPUTS).book.log
  {
    hide Transition, InRun;
    Starts();
    var s2 := Transition(Transition(BEFORE, INPUTS[0]), INPUTS[1]);
    Speaks(s2);
    var s3 := Transition(s2, INPUTS[2]);
    Asked(s3);
    var s4 := Transition(s3, INPUTS[3]);
    Written(s4);
    var s5 := Transition(s4, INPUTS[4]);
    Bounded(s5);
    var s6 := Transition(s5, INPUTS[5]);
    Over(s6);
    Drop(BEFORE, INPUTS, 0);
    Drop(Transition(BEFORE, INPUTS[0]), INPUTS, 1);
    Drop(s2, INPUTS, 2);
    Drop(s3, INPUTS, 3);
    Drop(s4, INPUTS, 4);
    Drop(s5, INPUTS, 5);
    Drop(s6, INPUTS, 6);
    assert INPUTS[7..] == [] && INPUTS[0..] == INPUTS;
  }

  lemma Drop(s: State, inputs: seq<Input>, k: nat)
    requires k < |inputs|
    ensures Execute(s, inputs[k..]) == Execute(Transition(s, inputs[k]), inputs[k + 1..])
  {
    hide Transition;
    assert inputs[k..][1..] == inputs[k + 1..];
  }

  // ------------------------------------------------------------------------------------
  // The last resort

  const CUTS: seq<Input> := [
    Boot(CONFIG), Plan("new", 0, true), TickAt(50, false), ClaudeExits(0, false),
    Plan("new", 51, true), TickAt(200, false), ClaudeExits(0, false), Plan("new", 201, true)]

  /** Between two runs, with this record of the rotation on disk. */
  predicate Recording(s: State, next: Next) {
    s.proc == Between(CONFIG, None) && s.disk == ON_DISK.(next := next) && !s.stopRequested
  }

  lemma FirstCut(s: State)
    requires InRun(s, false, Tracking(true, false, Waiting(50))) && s.disk == ON_DISK && !s.stopRequested
    ensures Recording(Transition(Transition(s, CUTS[2]), CUTS[3]), NextRetry(true, 1, false))
  {
    hide Extend, Allowed;
    var m := s.proc.run.tracker;
    var reply := OnTick(m, 50);
    assert reply == Cut(m, Wait) && reply.actions == [Retry(Wait, 1, false)];
    ActOnly(WithRun(s, s.proc.run.(tracker := reply.machine)), 50, reply.actions[0]);
  }

  lemma Retries(s: State)
    requires Recording(s, NextRetry(true, 1, false))
    ensures var t := Transition(s, CUTS[4]);
            && InRun(t, false, StartRetrying(NewMachine(LIMITS, 51), 51, 1, false))
            && t.disk == s.disk && !t.stopRequested
  {
    hide Extend, Allowed;
  }

  lemma SecondCut(s: State)
    requires InRun(s, false, StartRetrying(NewMachine(LIMITS, 51), 51, 1, false))
    requires s.disk == ON_DISK.(next := NextRetry(true, 1, false)) && !s.stopRequested
    ensures Recording(Transition(Transition(s, CUTS[5]), CUTS[6]), Fresh(false))
  {
    hide Extend, Allowed;
    var m := s.proc.run.tracker;
    var reply := OnTick(m, 200);
    assert reply == Cut(m, HandoffTurn) && reply.actions == [GiveUp(HandoffTurn, true, false)];
    ActOnly(WithRun(s, s.proc.run.(tracker := reply.machine)), 200, reply.actions[0]);
  }

  const REPLACED := NewId(Some("id"), true, "new", AfterRotation(false))

  lemma StartsAnew(s: State)
    requires Recording(s, Fresh(false))
    ensures REPLACED in Transition(s, CUTS[7]).book.log
  {
    hide Extend, Allowed;
  }

  lemma StartsOnDisk()
    ensures var s := Transition(Transition(BEFORE, CUTS[0]), CUTS[1]); s.disk == ON_DISK && !s.stopRequested
  {
    hide Extend, Allowed;
    var s := Transition(BEFORE, CUTS[0]);
    assert PlanStart(s, "new") == Planned(s, Start("id", true, Resumed, 0, false, false));
  }

  /** The first four steps: a start, and the cut of its first attempt. */
  function AfterFirstCut(): State {
    Transition(Transition(Transition(Transition(BEFORE, CUTS[0]), CUTS[1]), CUTS[2]), CUTS[3])
  }

  lemma FirstAttempt()
    ensures Recording(AfterFirstCut(), NextRetry(true, 1, false))
    ensures Execute(BEFORE, CUTS) == Execute(AfterFirstCut(), CUTS[4..])
  {
    hide Transition, InRun;
    Starts();
    StartsOnDisk();
    var s1 := Transition(BEFORE, CUTS[0]);
    var s2 := Transition(s1, CUTS[1]);
    FirstCut(s2);
    var s3 := Transition(s2, CUTS[2]);
    hide Recording;
    assert CUTS[0..] == CUTS;
    Drop(BEFORE, CUTS, 0);
    Drop(s1, CUTS, 1);
    Drop(s2, CUTS, 2);
    Drop(s3, CUTS, 3);
  }

  lemma SecondAttempt(s4: State)
    requires Recording(s4, NextRetry(true, 1, false))
    ensures REPLACED in Execute(s4, CUTS[4..]).book.log
  {
    hide Transition, InRun;
    Retries(s4);
    var s5 := Transition(s4, CUTS[4]);
    SecondCut(s5);
    var s6 := Transition(s5, CUTS[5]);
    var s7 := Transition(s6, CUTS[6]);
    StartsAnew(s7);
    hide Recording;
    Drop(s4, CUTS, 4);
    Drop(s5, CUTS, 5);
    Drop(s6, CUTS, 6);
    Drop(s7, CUTS, 7);
    assert CUTS[8..] == [];
  }

  /** A session id that could be resumed can be replaced, after both attempts were cut. */
  lemma AnIdIsReplaced()
    ensures Initially(BEFORE) && REPLACED in Execute(BEFORE, CUTS).book.log
  {
    hide AfterFirstCut, Recording, Execute;
    FirstAttempt();
    SecondAttempt(AfterFirstCut());
  }
}
