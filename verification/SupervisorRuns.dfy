/**
  The whole-run theorem: from any disk without a record of a rotation, every sequence of
  inputs leads to a safe history. With the lemmas of `History`, which say what safety means
  position by position, these are the promises of the supervisor.
 */
module SupervisorRuns {
  import opened Prelude
  import opened Rotation
  import opened History
  import opened Supervisor
  import opened SupervisorSafety
  import RotationTiming

  // ------------------------------------------------------------------------------------
  // The history only ever grows by entries

  /** `p` holds of a book with one more entry whenever it holds of the book. */
  ghost predicate Grows(p: Book -> bool) {
    forall b: Book, e: Entry :: p(b) ==> p(Append(b, e))
  }

  lemma ActOneGrows(s: State, now: nat, action: Action, p: Book -> bool)
    requires s.proc.Running? && Grows(p) && p(s.book)
    ensures p(ActOne(s, now, action).book)
  {
  }

  lemma {:induction false} FollowGrows(s: State, now: nat, actions: seq<Action>, p: Book -> bool)
    requires s.proc.Running? && Grows(p) && p(s.book)
    ensures p(Act(s, now, actions).book)
    decreases actions
  {
    if actions != [] {
      ActOneGrows(s, now, actions[0], p);
      FollowGrows(ActOne(s, now, actions[0]), now, actions[1..], p);
    }
  }

  lemma OnLineGrows(s: State, event: Event, now: nat, p: Book -> bool)
    requires s.proc.Running? && Grows(p) && p(s.book)
    ensures p(OnLine(s, event, now).book)
  {
  }

  lemma HearGrows(s: State, event: Event, written: bool, now: nat, p: Book -> bool)
    requires s.proc.Running? && Grows(p) && p(s.book)
    ensures p(StepHear(s, event, written, now).book)
  {
    hide OnLine, OnEvent, Act;
    var run := s.proc.run;
    var awaiting := !run.stopping && run.intro.None? && run.ready && run.tracker.phase.Handoff?;
    var u := Emit(s, HeardLine(event, awaiting, written));
    OnLineGrows(u, event, now, p);
    var t := OnLine(u, event, now);
    var r := t.proc.run;
    var m := if event.Result? && r.tracker.phase.Handoff? then r.tracker.(noteWritten := written) else r.tracker;
    var reply := OnEvent(m, event, now);
    FollowGrows(WithRun(t, r.(tracker := reply.machine)), now, reply.actions, p);
  }

  lemma MarkerGrows(s: State, now: nat, p: Book -> bool)
    requires s.proc.Running? && Grows(p) && p(s.book)
    ensures p(LookForMarker(s, now).book)
  {
    var found := OnMarker(s.proc.run.tracker, now);
    FollowGrows(WithRun(s, s.proc.run.(tracker := found.machine)), now, found.actions, p);
  }

  lemma TickGrows(s: State, now: nat, fifth: bool, p: Book -> bool)
    requires s.proc.Running? && Grows(p) && p(s.book)
    ensures p(StepTick(s, now, fifth).book)
  {
    MarkerGrows(s, now, p);
    var t := if s.proc.cfg.Rotates() && fifth then LookForMarker(s, now) else s;
    var reply := OnTick(t.proc.run.tracker, now);
    FollowGrows(WithRun(t, t.proc.run.(tracker := reply.machine)), now, reply.actions, p);
  }

  lemma StepPlanGrows(s: State, newId: string, now: nat, spawns: bool, p: Book -> bool)
    requires s.proc.Between? && Grows(p) && p(s.book)
    ensures p(StepPlan(s, newId, now, spawns).book)
  {
    assert p(PlanStart(s, newId).state.book);
  }

  lemma TransitionGrows(s: State, input: Input, p: Book -> bool)
    requires Grows(p) && p(s.book)
    ensures p(Transition(s, input).book)
  {
    match input
    case Plan(newId, now, spawns) => if s.proc.Between? { StepPlanGrows(s, newId, now, spawns, p); }
    case Hear(event, written, now) => if s.proc.Running? { HearGrows(s, event, written, now, p); }
    case TickAt(now, fifth) => if s.proc.Running? { TickGrows(s, now, fifth, p); }
    case _ =>
  }

  lemma TransitionKept(s: State, input: Input)
    requires WellKept(s.book)
    ensures WellKept(Transition(s, input).book)
  {
    forall b: Book, e: Entry | WellKept(b) ensures WellKept(Append(b, e)) {
      AppendKeeps(b, e);
    }
    TransitionGrows(s, input, WellKept);
  }

  // ------------------------------------------------------------------------------------
  // Every run is safe

  lemma {:induction false} ExecuteKeeps(s: State, inputs: seq<Input>)
    requires Inv(s) && WellKept(s.book)
    ensures Inv(Execute(s, inputs)) && WellKept(Execute(s, inputs).book)
    decreases inputs
  {
    if inputs != [] {
      StepKeeps(s, inputs[0]);
      TransitionKept(s, inputs[0]);
      ExecuteKeeps(Transition(s, inputs[0]), inputs[1..]);
    }
  }

  /** Whatever the inputs are, the history of the supervisor is safe. */
  lemma EveryRunIsSafe(s: State, inputs: seq<Input>)
    requires Initially(s)
    ensures Safe(Execute(s, inputs).book.log)
  {
    ExecuteKeeps(s, inputs);
  }

  /** In every state the supervisor reaches, the count of attempts on disk is below the limit
      and is the number of attempts the rotation has spent. */
  lemma PersistedAttemptsBounded(s: State, inputs: seq<Input>)
    requires Initially(s)
    ensures var t := Execute(s, inputs);
            var spent := CountInRotation(t.book.log, IsRecord);
            match t.disk.next
            case Normal => spent == 0
            case NextRetry(_, attempts, _) => 0 < attempts == spent < HANDOFF_ATTEMPTS
            case Postponed(attempts, _) => 0 < attempts == spent < HANDOFF_ATTEMPTS
            case Fresh(_) => spent == HANDOFF_ATTEMPTS
  {
    ExecuteKeeps(s, inputs);
    RotationFieldsMean(Execute(s, inputs).book.log);
  }

  // ------------------------------------------------------------------------------------
  // The rank falls from run to run

  /** The next run of claude, once a reply has decided a restart. */
  function NextRun(s: State, reply: Reply, now: nat, code: int, newId: string, later: nat): State
    requires s.proc.Running?
  {
    var t := StepExit(Follow(s, now, reply), code, false);
    if t.proc.Between? then StepPlan(t, newId, later, true) else t
  }

  /** When an attempt is cut or fails, the run that follows either carries the rotation on with
      a lower rank (attempts left, phases to come) or has ended the rotation. */
  lemma RestartLowersRank(s: State, step: Step, now: nat, code: int, newId: string, later: nat)
    requires Inv(s) && s.proc.Running? && s.proc.run.after.None? && !s.stopRequested
    requires RotationTiming.UnderWay(s.proc.run.tracker)
    ensures var m := s.proc.run.tracker;
            forall reply :: reply == Cut(m, step) || reply == Failed(m, step, now) ==>
              var t := NextRun(s, reply, now, code, newId, later);
              && t.proc.Running?
              && (RotationTiming.Rank(t.proc.run.tracker) < RotationTiming.Rank(m) || t.book.sum.spent == 0)
  {
    var m := s.proc.run.tracker;
    forall reply | reply == Cut(m, step) || reply == Failed(m, step, now)
      ensures var t := NextRun(s, reply, now, code, newId, later);
              t.proc.Running? && (RotationTiming.Rank(t.proc.run.tracker) < RotationTiming.Rank(m) || t.book.sum.spent == 0)
    {
      RestartFrom(s, reply, reply.actions[0], step, now, code, newId, later);
    }
  }

  /** A start of claude, and whether it says so. */
  lemma LaunchMeans(s: State, cfg: Config, start: Start, notBefore: Option<nat>, now: nat)
    ensures var t := Begin(s, cfg, start, notBefore, now);
            && t.book.sum.spent == s.book.sum.spent
            && t.proc.run.tracker == StartTracker(cfg, start, s.disk.marker, notBefore, now)
  {
    hide Extend, Allowed, AsksForHandoff, StartTracker, StartLine;
    forall sum: Summary, e: Entry | !e.RotationOver? && !e.Recorded? ensures Extend(sum, e).spent == sum.spent {
      ExtendsRotation(sum, e);
    }
  }

  /** Attempts recorded on disk as spent. */
  function RecordedAttempts(next: Next): nat {
    match next
    case Normal => 0
    case NextRetry(_, attempts, _) => attempts
    case Postponed(attempts, _) => attempts
    case Fresh(_) => HANDOFF_ATTEMPTS
  }

  /** A start from a record carries on with the attempts left, or ends the rotation. */
  lemma PlanMeans(s: State, newId: string, now: nat)
    requires s.proc.Between? && !s.stopRequested && !s.proc.cfg.OneShotMode() && !s.disk.next.Normal?
    requires s.disk.next.Postponed? ==> s.proc.cfg.Rotates()
    ensures var t := StepPlan(s, newId, now, true);
            && t.proc.Running?
            && (|| RotationTiming.Rank(t.proc.run.tracker) <= 4 * (HANDOFF_ATTEMPTS - RecordedAttempts(s.disk.next)) + 3
                || t.book.sum.spent == 0)
  {
    hide WroteNote, AsksForHandoff, Allowed, Begin;
    var p := PlanStart(s, newId);
    LaunchMeans(p.state, s.proc.cfg, p.start, s.proc.notBefore, now);
  }

  lemma RestartFrom(s: State, reply: Reply, action: Action, step: Step, now: nat, code: int, newId: string, later: nat)
    requires Inv(s) && s.proc.Running? && s.proc.run.after.None? && !s.stopRequested
    requires RotationTiming.UnderWay(s.proc.run.tracker)
    requires reply == Cut(s.proc.run.tracker, step) || reply == Failed(s.proc.run.tracker, step, now)
    requires action == reply.actions[0]
    ensures var t := NextRun(s, reply, now, code, newId, later);
            && t.proc.Running?
            && (RotationTiming.Rank(t.proc.run.tracker) < RotationTiming.Rank(s.proc.run.tracker) || t.book.sum.spent == 0)
  {
    hide WroteNote, AsksForHandoff, Allowed, StepPlan, Extend;
    var m := s.proc.run.tracker;
    var t := WithRun(s, s.proc.run.(tracker := reply.machine));
    ActOnly(t, now, action);
    var u := StepExit(Follow(s, now, reply), code, false);
    assert u.proc.Between? && RecordedAttempts(u.disk.next) == m.attempts + 1;
    PlanMeans(u, newId, later);
  }
}
