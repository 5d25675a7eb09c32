/**
  The saved session id: when it changes, and that a conversation that could be resumed is not
  lost for less than a rotation that failed for good, or a resume that claude itself refused.
 */
module SupervisorIds {
  import opened Prelude
  import opened Rotation
  import opened History
  import opened Supervisor
  import opened SupervisorRuns
  import opened SupervisorHeard

  // ------------------------------------------------------------------------------------
  // Steps that leave the id alone

  lemma ActOneKeepsId(s: State, now: nat, action: Action)
    requires s.proc.Running?
    ensures ActOne(s, now, action).disk.id == s.disk.id
  {
    hide Append;
  }

  lemma {:induction false} ActKeepsId(s: State, now: nat, actions: seq<Action>)
    requires s.proc.Running?
    ensures Act(s, now, actions).disk.id == s.disk.id
    decreases actions
  {
    hide ActOne;
    if actions != [] {
      ActOneKeepsId(s, now, actions[0]);
      ActKeepsId(ActOne(s, now, actions[0]), now, actions[1..]);
    }
  }

  lemma FollowKeepsId(s: State, now: nat, reply: Reply)
    requires s.proc.Running?
    ensures Follow(s, now, reply).disk.id == s.disk.id
  {
    hide Act;
    ActKeepsId(WithRun(s, s.proc.run.(tracker := reply.machine)), now, reply.actions);
  }

  lemma OnLineKeepsId(s: State, event: Event, now: nat)
    requires s.proc.Running?
    ensures OnLine(s, event, now).disk.id == s.disk.id
  {
    hide Append;
  }

  lemma HearKeepsId(s: State, event: Event, written: bool, now: nat)
    requires s.proc.Running?
    ensures StepHear(s, event, written, now).disk.id == s.disk.id
  {
    hide OnLine, Follow, Append, OnEvent;
    var run := s.proc.run;
    var awaiting := !run.stopping && run.intro.None? && run.ready && run.tracker.phase.Handoff?;
    var u := Emit(s, HeardLine(event, awaiting, written));
    OnLineKeepsId(u, event, now);
    var t := OnLine(u, event, now);
    var r := t.proc.run;
    var m := if event.Result? && r.tracker.phase.Handoff? then r.tracker.(noteWritten := written) else r.tracker;
    FollowKeepsId(t, now, OnEvent(m, event, now));
  }

  lemma MarkerKeepsId(s: State, now: nat)
    requires s.proc.Running?
    ensures LookForMarker(s, now).disk.id == s.disk.id
  {
    hide Follow, Append, OnMarker;
    FollowKeepsId(s, now, OnMarker(s.proc.run.tracker, now));
  }

  lemma TickKeepsId(s: State, now: nat, fifth: bool)
    requires s.proc.Running?
    ensures StepTick(s, now, fifth).disk.id == s.disk.id
  {
    hide Follow, LookForMarker, Append, OnTick;
    MarkerKeepsId(s, now);
    var t := if s.proc.cfg.Rotates() && fifth then LookForMarker(s, now) else s;
    FollowKeepsId(t, now, OnTick(t.proc.run.tracker, now));
  }

  lemma BeginKeepsId(s: State, cfg: Config, start: Start, notBefore: Option<nat>, now: nat)
    ensures var t := Begin(s, cfg, start, notBefore, now);
            t.disk == s.disk && t.proc.run.start == start && t.proc.run.after.None?
  {
    hide Append, StartTracker, StartLine;
  }

  // ------------------------------------------------------------------------------------
  // Steps that change it

  /** `t` goes on with the history of `s`. */
  predicate Continues(s: State, t: State) {
    s.book.log <= t.book.log
  }

  /** A new id was recorded between `s` and `t`, with what it replaced, and is the saved one now. */
  ghost predicate GivenNewId(s: State, t: State) {
    exists k :: |s.book.log| <= k < |t.book.log| && RecordsNewId(s, t, t.book.log[k])
  }

  predicate RecordsNewId(s: State, t: State, e: Entry) {
    e.NewId? && e.replaced == s.disk.id && e.resumable == HasTranscript(s.disk) && t.disk.id == Some(e.id)
  }

  /** Claude refused to resume the saved conversation, before anything decided its run. */
  predicate Refused(s: State, input: Input) {
    && input.ClaudeExits? && input.noConversation && s.proc.Running? && !s.proc.cfg.OneShotMode()
    && s.proc.run.start.resume && s.proc.run.after.None?
  }

  /** The next start gives the session up: its rotation failed for good, or there is nothing to resume. */
  predicate StartsAnew(disk: Disk) {
    disk.next.Fresh? || !HasTranscript(disk)
  }

  /** What a plan does to the id: a new one if the session is given up, and else the saved one again. */
  lemma PlanExactly(s: State, newId: string)
    ensures var p := PlanStart(s, newId);
            if StartsAnew(s.disk) then
              && p.start.id == newId && !p.start.resume && p.state.disk.id == Some(newId)
              && Continues(s, p.state) && GivenNewId(s, p.state)
            else p.start.id == s.disk.id.value && p.start.resume && p.state.disk.id == s.disk.id
  {
    hide Extend, Allowed;
    var p, n := PlanStart(s, newId), |s.book.log|;
    var log := p.state.book.log;
    if StartsAnew(s.disk) {
      if !s.disk.next.Fresh? && !s.disk.next.NextRetry? {
        var t := Emit(s.(disk := s.disk.Cleared()), RotationOver(ByNewId));
        assert RecordsNewId(s, p.state, log[n + 1]);
      } else {
        assert RecordsNewId(s, p.state, log[n]);
      }
    }
  }

  lemma BeginContinues(s: State, cfg: Config, start: Start, notBefore: Option<nat>, now: nat)
    ensures Continues(s, Begin(s, cfg, start, notBefore, now))
  {
    hide Extend, Allowed, StartTracker, StartLine;
  }

  lemma LeaveContinues(s: State, code: int, oneShot: bool)
    ensures var t := Leave(Emit(s, Interrupted), code, oneShot); Continues(s, t) && t.disk == s.disk
  {
    hide Extend, Allowed;
  }

  lemma NewIdCarries(s: State, t: State, u: State)
    requires GivenNewId(s, t) && Continues(t, u) && u.disk.id == t.disk.id
    ensures GivenNewId(s, u)
  {
    var k :| |s.book.log| <= k < |t.book.log| && RecordsNewId(s, t, t.book.log[k]);
    assert u.book.log[k] == t.book.log[k];
    assert RecordsNewId(s, u, u.book.log[k]);
  }

  /** Claude is started by a plan, and not in one-shot mode. */
  predicate Plans(s: State, input: Input) {
    input.Plan? && s.proc.Between? && !s.stopRequested && !s.proc.cfg.OneShotMode()
  }

  lemma StepPlanId(s: State, newId: string, now: nat, spawns: bool)
    requires s.proc.Between?
    ensures var t := StepPlan(s, newId, now, spawns);
            if Plans(s, Plan(newId, now, spawns)) && StartsAnew(s.disk) then GivenNewId(s, t) && t.disk.id == Some(newId)
            else t.disk.id == s.disk.id
    ensures var t := StepPlan(s, newId, now, spawns);
            t.proc.Running? ==> t.disk.id == Some(t.proc.run.start.id) && t.proc.run.start.resume == !(Plans(s, Plan(newId, now, spawns)) && StartsAnew(s.disk))
  {
    hide PlanStart, Begin, Leave, Append, GivenNewId, Continues;
    PlanExactly(s, newId);
    var p := PlanStart(s, newId);
    var one := Start(if s.disk.id.Some? then s.disk.id.value else "", true, Resumed, 0, false, false);
    BeginKeepsId(p.state, s.proc.cfg, p.start, s.proc.notBefore, now);
    BeginKeepsId(s, s.proc.cfg, one, s.proc.notBefore, now);
    BeginContinues(p.state, s.proc.cfg, p.start, s.proc.notBefore, now);
    LeaveContinues(s, 0, s.proc.cfg.OneShotMode());
    LeaveContinues(s, EXIT_EMERGENCY, true);
    LeaveContinues(s, EXIT_EMERGENCY, s.proc.cfg.OneShotMode());
    LeaveContinues(p.state, 1, false);
    if Plans(s, Plan(newId, now, spawns)) && StartsAnew(s.disk) {
      NewIdCarries(s, p.state, StepPlan(s, newId, now, spawns));
    }
  }

  /**
    For every step of every kind: the saved id becomes a new one, recorded with what it replaced,
    exactly when a start gives the session up; it is dropped exactly when claude refused to resume
    it; and no other step changes it.
   */
  lemma IdChangesExactly(s: State, input: Input)
    ensures var t := Transition(s, input);
            if Plans(s, input) && StartsAnew(s.disk) then GivenNewId(s, t) && t.disk.id == Some(input.newId)
            else if Refused(s, input) then t.disk.id.None?
            else t.disk.id == s.disk.id
  {
    hide StepPlan, StepHear, StepTick, Append, GivenNewId, StartsAnew;
    match input
    case Plan(newId, now, spawns) => if s.proc.Between? { StepPlanId(s, newId, now, spawns); }
    case Hear(event, written, now) => if s.proc.Running? { HearKeepsId(s, event, written, now); }
    case TickAt(now, fifth) => if s.proc.Running? { TickKeepsId(s, now, fifth); }
    case _ =>
  }

  // ------------------------------------------------------------------------------------
  // Every run

  lemma {:induction false} OneStepMore(s: State, inputs: seq<Input>, n: nat)
    requires n < |inputs|
    ensures Execute(s, inputs[..n + 1]) == Transition(Execute(s, inputs[..n]), inputs[n])
    decreases n
  {
    hide Transition;
    var more := inputs[..n + 1];
    if n == 0 {
      assert more[1..] == [] && inputs[..0] == [];
    } else {
      assert more[1..] == inputs[1..][..n] && inputs[..n][1..] == inputs[1..][..n - 1];
      OneStepMore(Transition(s, inputs[0]), inputs[1..], n - 1);
    }
  }

  /**
    In every run: an id that is saved with its transcript is replaced or dropped by a step only if
    all attempts of its rotation were recorded as spent, or claude refused to resume it.
   */
  lemma EverySavedIdIsKept(s: State, inputs: seq<Input>, n: nat)
    requires Initially(s) && n < |inputs| && HasTranscript(Execute(s, inputs[..n]).disk)
    ensures var was, now := Execute(s, inputs[..n]), Execute(s, inputs[..n + 1]);
            || now.disk.id == was.disk.id
            || Refused(was, inputs[n])
            || exists k :: |was.book.log| <= k < |now.book.log| && RecordsNewId(was, now, now.book.log[k])
                           && CountInRotation(now.book.log[..k], IsRecord) == HANDOFF_ATTEMPTS
  {
    hide Transition, Execute, Initially, Safe, CountInRotation, Refused, StartsAnew, Plans;
    var was, now := Execute(s, inputs[..n]), Execute(s, inputs[..n + 1]);
    OneStepMore(s, inputs, n);
    IdChangesExactly(was, inputs[n]);
    if now.disk.id != was.disk.id && !Refused(was, inputs[n]) {
      EveryRunIsSafe(s, inputs[..n + 1]);
      var k :| |was.book.log| <= k < |now.book.log| && RecordsNewId(was, now, now.book.log[k]);
      FreshIdIsTheLastResort(now.book.log, k);
    }
  }
}
