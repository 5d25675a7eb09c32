/**
  One run of claude in terms of what the supervisor heard and saw in it: when its first line goes
  out, when the channel opens, what decides how it ends, and with which code the process leaves.
  Nothing here looks at the run's own fields for what was heard.
 */
module SupervisorHeard {
  import opened Prelude
  import opened Rotation
  import opened History
  import opened Supervisor

  // ------------------------------------------------------------------------------------
  // What was heard

  predicate Hears(x: Input, p: Event -> bool) {
    x.Hear? && p(x.event)
  }

  /** Claude tells how large its window is. */
  predicate Answers(x: Input) {
    Hears(x, (e: Event) => e.ContextUsage? && e.ours)
  }

  predicate AnsweredAt(x: Input, at: nat) {
    Answers(x) && x.now == at
  }

  /** A model answers in the main conversation. */
  predicate Speaks(x: Input) {
    Hears(x, (e: Event) => e.Assistant? && !e.subagent && !e.synthetic)
  }

  predicate Compacts(x: Input) {
    Hears(x, (e: Event) => e == Boundary(false))
  }

  predicate FailsToCompact(x: Input) {
    Hears(x, (e: Event) => e.CompactionFailed?)
  }

  predicate EndsTurn(x: Input) {
    Hears(x, (e: Event) => e.Result?)
  }

  /** A turn switches to the fallback model for good. */
  predicate FallsBack(x: Input) {
    Hears(x, (e: Event) => e.ModelFallback? && e.fatal)
  }

  predicate AsksToStop(x: Input) {
    x.RequestStop?
  }

  /** An input of a kind came. */
  predicate Came(inputs: seq<Input>, p: Input -> bool) {
    exists i :: 0 <= i < |inputs| && p(inputs[i])
  }

  /** The first line still waits for the window check. */
  predicate Waits(cfg: Config, inputs: seq<Input>) {
    cfg.window.Some? && !Came(inputs, Answers)
  }

  /** The first line went out at this instant: at the start, or with the first answer. */
  ghost predicate WentOut(cfg: Config, inputs: seq<Input>, started: nat, at: nat) {
    if cfg.window.None? then at == started
    else exists i :: 0 <= i < |inputs| && AnsweredAt(inputs[i], at) && !Came(inputs[..i], Answers)
  }

  // ------------------------------------------------------------------------------------
  // Runs of claude

  /** Nothing has decided yet how claude's run ends. */
  predicate Undecided(s: State) {
    s.proc.Running? && s.proc.run.after.None?
  }

  /** The inputs of one run of claude, which nothing has decided yet. */
  predicate InRun(s: State, inputs: seq<Input>)
    decreases inputs
  {
    Undecided(Execute(s, inputs)) && (inputs == [] || InRun(s, Init(inputs)))
  }

  /** Claude has just been started. */
  predicate Begun(s: State, started: nat) {
    Undecided(s) && !s.stopRequested &&
    var cfg, run := s.proc.cfg, s.proc.run;
    && run.stdin && !run.stopping && !run.ready && !run.compacted && !run.compactFailed
    && run.introDeadline == started + cfg.windowWait
    && run.intro == (if cfg.window.Some? then Some(StartLine(cfg, run.start)) else None)
    && run.deadline == if cfg.OneShotMode() && cfg.window.None? then Some(started + cfg.limits.compact) else None
  }

  lemma BeginsRun(s: State, cfg: Config, start: Start, notBefore: Option<nat>, now: nat)
    requires !s.stopRequested
    ensures var t := Begin(s, cfg, start, notBefore, now); Begun(t, now) && t.proc.run.start == start
  {
    hide Append, StartTracker, StartLine;
  }

  lemma {:induction false} OneMore(s: State, inputs: seq<Input>, x: Input)
    ensures Execute(s, inputs + [x]) == Transition(Execute(s, inputs), x)
    decreases inputs
  {
    hide Transition;
    if inputs == [] {
      assert [] + [x] == [x] && [x][1..] == [];
    } else {
      assert (inputs + [x])[0] == inputs[0] && (inputs + [x])[1..] == inputs[1..] + [x];
      OneMore(Transition(s, inputs[0]), inputs[1..], x);
    }
  }

  lemma CameMore(inputs: seq<Input>, x: Input, p: Input -> bool)
    ensures Came(inputs + [x], p) <==> Came(inputs, p) || p(x)
  {
    var more := inputs + [x];
    assert more[|inputs|] == x;
    assert forall i :: 0 <= i < |inputs| ==> more[i] == inputs[i];
  }

  lemma WentOutMore(cfg: Config, inputs: seq<Input>, x: Input, started: nat, at: nat)
    ensures WentOut(cfg, inputs, started, at) ==> WentOut(cfg, inputs + [x], started, at)
    ensures cfg.window.Some? && !Came(inputs, Answers) && Answers(x) ==> WentOut(cfg, inputs + [x], started, x.now)
  {
    hide Answers;
    var more := inputs + [x];
    assert more[|inputs|] == x && more[..|inputs|] == inputs;
    assert forall i :: 0 <= i < |inputs| ==> more[i] == inputs[i] && more[..i] == inputs[..i];
  }

  /** The run's fields are what was heard. */
  ghost predicate Told(s: State, inputs: seq<Input>, started: nat, t: State)
    requires s.proc.Running? && t.proc.Running?
  {
    var cfg, run := s.proc.cfg, t.proc.run;
    var oneShot := cfg.OneShotMode();
    && t.proc.cfg == cfg && run.start == s.proc.run.start && run.stdin && !run.stopping
    && (t.stopRequested <==> Came(inputs, AsksToStop))
    && run.introDeadline == started + cfg.windowWait
    && run.intro == (if Waits(cfg, inputs) then Some(StartLine(cfg, run.start)) else None)
    && (run.ready <==> !oneShot && Came(inputs, Speaks))
    && (run.compacted <==> oneShot && Came(inputs, Compacts))
    && (run.compactFailed <==> oneShot && Came(inputs, FailsToCompact))
    && (run.deadline.Some? <==> oneShot && !Waits(cfg, inputs))
    && (run.deadline.Some? ==> Capped(cfg, inputs, started, run.deadline.value))
  }

  /** The cap counts from when the first line went out. */
  ghost predicate Capped(cfg: Config, inputs: seq<Input>, started: nat, deadline: nat) {
    deadline >= cfg.limits.compact && WentOut(cfg, inputs, started, deadline - cfg.limits.compact)
  }

  // ------------------------------------------------------------------------------------
  // What one step changes of a run

  lemma ActOneRun(s: State, now: nat, action: Action)
    requires s.proc.Running?
    ensures var t := ActOne(s, now, action);
            && (t.proc.run == s.proc.run || (t.proc.run.after.Some? && t.proc.run.after.value.Again?))
            && (s.proc.run.after.Some? ==> t.proc.run.after.Some?)
  {
    hide Append;
  }

  lemma {:induction false} ActRun(s: State, now: nat, actions: seq<Action>)
    requires s.proc.Running?
    ensures var t := Act(s, now, actions);
            t.proc.run == s.proc.run || (t.proc.run.after.Some? && t.proc.run.after.value.Again?)
    decreases actions
  {
    hide ActOne;
    if actions != [] {
      ActOneRun(s, now, actions[0]);
      ActRun(ActOne(s, now, actions[0]), now, actions[1..]);
    }
  }

  /** The tracker's answer changes the tracker, or restarts claude. */
  predicate Follows(s: State, t: State)
    requires s.proc.Running?
  {
    && t.proc.Running? && t.proc.cfg == s.proc.cfg
    && (|| t.proc.run.(tracker := s.proc.run.tracker) == s.proc.run
        || (t.proc.run.after.Some? && t.proc.run.after.value.Again?))
  }

  lemma FollowRun(s: State, now: nat, reply: Reply)
    requires s.proc.Running?
    ensures Follows(s, Follow(s, now, reply))
  {
    hide Act;
    ActRun(WithRun(s, s.proc.run.(tracker := reply.machine)), now, reply.actions);
  }

  // ------------------------------------------------------------------------------------
  // What decides how a run ends

  /** The window is as large as configured. */
  predicate Enough(cfg: Config, x: Input)
    requires Answers(x)
  {
    cfg.window.Some? ==> x.event.maxTokens.Some? && x.event.maxTokens.value >= cfg.window.value
  }

  /** The model cannot serve: a turn switched to the fallback for good, or the window is too small. */
  predicate ModelRefuses(cfg: Config, inputs: seq<Input>, x: Input) {
    || FallsBack(x)
    || (Answers(x) && Waits(cfg, inputs) && !Enough(cfg, x))
  }

  /** The first turn ends without an answer of a model, or the window check is not answered in time. */
  predicate NeverSpeaks(cfg: Config, inputs: seq<Input>, started: nat, x: Input) {
    || (EndsTurn(x) && !cfg.OneShotMode() && !Came(inputs, Speaks))
    || (x.TickAt? && Waits(cfg, inputs) && started + cfg.windowWait <= x.now)
  }

  /** The one turn of emergency mode is over: its result is there, not that of a turn before the
      compaction it asks for, or its time is up. */
  ghost predicate TurnIsOver(cfg: Config, inputs: seq<Input>, started: nat, x: Input) {
    cfg.OneShotMode() &&
    (|| (EndsTurn(x) && (x.event.isError || !cfg.emergency.compacts || Came(inputs, Compacts) || Came(inputs, FailsToCompact)))
     || (x.TickAt? && exists at: nat :: WentOut(cfg, inputs, started, at) && at + cfg.limits.compact <= x.now))
  }

  predicate Stops(inputs: seq<Input>, x: Input) {
    x.SeeStop? && Came(inputs, AsksToStop)
  }

  lemma FirstAnswer(inputs: seq<Input>, i: nat, j: nat)
    requires i < |inputs| && j <= |inputs| && Answers(inputs[i]) && !Came(inputs[..j], Answers)
    ensures j <= i
  {
    assert forall k :: 0 <= k < j ==> inputs[..j][k] == inputs[k];
  }

  lemma WentOutOnce(cfg: Config, inputs: seq<Input>, started: nat, a: nat, b: nat)
    requires WentOut(cfg, inputs, started, a) && WentOut(cfg, inputs, started, b)
    ensures a == b
  {
    if cfg.window.Some? {
      var i :| 0 <= i < |inputs| && AnsweredAt(inputs[i], a) && !Came(inputs[..i], Answers);
      var j :| 0 <= j < |inputs| && AnsweredAt(inputs[j], b) && !Came(inputs[..j], Answers);
      FirstAnswer(inputs, i, j);
      FirstAnswer(inputs, j, i);
    }
  }

  /** What `x` decides, after `inputs` which decided nothing. */
  ghost predicate DecidesBy(cfg: Config, inputs: seq<Input>, started: nat, x: Input, after: Option<Outcome>) {
    && (after == Some(Ended(EXIT_MODEL)) <==> ModelRefuses(cfg, inputs, x))
    && (after == Some(Ended(1)) <==> NeverSpeaks(cfg, inputs, started, x))
    && (after == Some(Ended(EXIT_EMERGENCY)) <==> TurnIsOver(cfg, inputs, started, x))
    && (after == Some(Exit(0)) <==> Stops(inputs, x))
    && (after.Some? ==> after.value in {Ended(EXIT_MODEL), Ended(1), Ended(EXIT_EMERGENCY), Exit(0)} || after.value.Again?)
  }

  /** An input is of one kind only. */
  lemma OneKind(x: Input)
    ensures Answers(x) ==> x.Hear? && !Speaks(x) && !Compacts(x) && !FailsToCompact(x) && !EndsTurn(x) && !AsksToStop(x) && !FallsBack(x)
    ensures EndsTurn(x) ==> x.Hear? && !Speaks(x) && !Compacts(x) && !FailsToCompact(x) && !AsksToStop(x) && !FallsBack(x)
    ensures !x.Hear? ==> !Answers(x) && !Speaks(x) && !Compacts(x) && !FailsToCompact(x) && !EndsTurn(x) && !FallsBack(x)
    ensures x.Hear? && x.event.ModelFallback? ==>
              !Answers(x) && !Speaks(x) && !Compacts(x) && !FailsToCompact(x) && !EndsTurn(x) && !AsksToStop(x)
  {
  }

  lemma AllMore(inputs: seq<Input>, x: Input)
    ensures Came(inputs + [x], Answers) <==> Came(inputs, Answers) || Answers(x)
    ensures Came(inputs + [x], Speaks) <==> Came(inputs, Speaks) || Speaks(x)
    ensures Came(inputs + [x], Compacts) <==> Came(inputs, Compacts) || Compacts(x)
    ensures Came(inputs + [x], FailsToCompact) <==> Came(inputs, FailsToCompact) || FailsToCompact(x)
    ensures Came(inputs + [x], AsksToStop) <==> Came(inputs, AsksToStop) || AsksToStop(x)
  {
    CameMore(inputs, x, Answers);
    CameMore(inputs, x, Speaks);
    CameMore(inputs, x, Compacts);
    CameMore(inputs, x, FailsToCompact);
    CameMore(inputs, x, AsksToStop);
  }

  /** The instant from which the one turn of emergency mode counts stays the same. */
  lemma StillOut(s: State, inputs: seq<Input>, started: nat, t: State, x: Input)
    requires Undecided(s) && Undecided(t) && Told(s, inputs, started, t) && t.proc.run.deadline.Some?
    ensures Capped(s.proc.cfg, inputs + [x], started, t.proc.run.deadline.value)
    ensures !Waits(s.proc.cfg, inputs)
  {
    hide WentOut, Came;
    WentOutMore(s.proc.cfg, inputs, x, started, t.proc.run.deadline.value - s.proc.cfg.limits.compact);
  }

  /** What a line does to the run of `t`. */
  ghost predicate LineTells(s: State, inputs: seq<Input>, started: nat, t: State, x: Input, u: State)
    requires s.proc.Running? && t.proc.Running?
  {
    && u.proc.Running?
    && DecidesBy(s.proc.cfg, inputs, started, x, u.proc.run.after)
    && u.proc.run.stopping == u.proc.run.after.Some? && (u.proc.run.after.Some? ==> !u.proc.run.after.value.Again?)
    && (u.proc.run.after.None? ==> Told(s, inputs + [x], started, u) && u.proc.run.tracker == t.proc.run.tracker)
  }

  lemma CappedNow(cfg: Config, inputs: seq<Input>, x: Input, started: nat)
    requires Answers(x) && Waits(cfg, inputs)
    ensures Capped(cfg, inputs + [x], started, x.now + cfg.limits.compact)
  {
    WentOutMore(cfg, inputs, x, started, 0);
  }

  lemma LateAnswerDecides(s: State, inputs: seq<Input>, started: nat, t: State, x: Input)
    requires Undecided(s) && Undecided(t) && Told(s, inputs, started, t) && Answers(x) && !Waits(s.proc.cfg, inputs)
    ensures LineTells(s, inputs, started, t, x, OnLine(t, x.event, x.now))
  {
    OneKind(x);
    AllMore(inputs, x);
    hide Append, Came, WentOut, Capped, StartLine, SendFirst, End, Speaks, Compacts, FailsToCompact, AsksToStop, FallsBack, EndsTurn;
    if t.proc.run.deadline.Some? {
      StillOut(s, inputs, started, t, x);
    }
  }

  lemma AnswerRun(t: State, x: Input)
    requires Undecided(t) && Answers(x) && t.proc.run.intro.Some? && t.proc.cfg.window.Some?
    ensures var cfg, run, u := t.proc.cfg, t.proc.run, OnLine(t, x.event, x.now);
            && u.proc.Running? && u.proc.cfg == cfg && u.stopRequested == t.stopRequested
            && if Enough(cfg, x) then
                 u.proc.run == run.(intro := None, deadline := if cfg.OneShotMode() then Some(x.now + cfg.limits.compact) else run.deadline)
               else u.proc.run.after == Some(Ended(EXIT_MODEL)) && u.proc.run.stopping
  {
    hide Append;
  }

  lemma FirstAnswerDecides(s: State, inputs: seq<Input>, started: nat, t: State, x: Input)
    requires Undecided(s) && Undecided(t) && Told(s, inputs, started, t) && Answers(x) && Waits(s.proc.cfg, inputs)
    ensures LineTells(s, inputs, started, t, x, OnLine(t, x.event, x.now))
  {
    OneKind(x);
    AllMore(inputs, x);
    CappedNow(s.proc.cfg, inputs, x, started);
    AnswerRun(t, x);
    hide OnLine, Came, WentOut, Capped, StartLine, Speaks, Compacts, FailsToCompact, AsksToStop, FallsBack, EndsTurn;
  }

  lemma ResultDecides(s: State, inputs: seq<Input>, started: nat, t: State, x: Input)
    requires Undecided(s) && Undecided(t) && Told(s, inputs, started, t) && EndsTurn(x)
    ensures LineTells(s, inputs, started, t, x, OnLine(t, x.event, x.now))
  {
    OneKind(x);
    AllMore(inputs, x);
    hide Append, Came, WentOut, Capped, StartLine, Speaks, Compacts, FailsToCompact, AsksToStop, FallsBack, Answers;
    if t.proc.run.deadline.Some? {
      StillOut(s, inputs, started, t, x);
    }
  }

  lemma SpeechDecides(s: State, inputs: seq<Input>, started: nat, t: State, x: Input)
    requires Undecided(s) && Undecided(t) && Told(s, inputs, started, t) && x.Hear? && x.event.Assistant?
    ensures LineTells(s, inputs, started, t, x, OnLine(t, x.event, x.now))
  {
    AllMore(inputs, x);
    hide Append, Came, WentOut, Capped, StartLine;
    if t.proc.run.deadline.Some? {
      StillOut(s, inputs, started, t, x);
    }
  }

  lemma FallbackDecides(s: State, inputs: seq<Input>, started: nat, t: State, x: Input)
    requires Undecided(s) && Undecided(t) && Told(s, inputs, started, t) && x.Hear? && x.event.ModelFallback?
    ensures LineTells(s, inputs, started, t, x, OnLine(t, x.event, x.now))
  {
    OneKind(x);
    AllMore(inputs, x);
    hide Append, Came, WentOut, Capped, StartLine, OpenChannel, AnswerWindow, EmergencyDone, Answers, Speaks, Compacts, FailsToCompact, AsksToStop, EndsTurn;
    if t.proc.run.deadline.Some? {
      StillOut(s, inputs, started, t, x);
    }
  }

  lemma OtherDecides(s: State, inputs: seq<Input>, started: nat, t: State, x: Input)
    requires Undecided(s) && Undecided(t) && Told(s, inputs, started, t) && x.Hear?
    requires !EndsTurn(x) && !Answers(x) && !x.event.Assistant? && !x.event.ModelFallback?
    ensures LineTells(s, inputs, started, t, x, OnLine(t, x.event, x.now))
  {
    AllMore(inputs, x);
    hide Append, Came, WentOut, Capped, StartLine, OpenChannel, AnswerWindow, EmergencyDone, End;
    if t.proc.run.deadline.Some? {
      StillOut(s, inputs, started, t, x);
    }
  }

  lemma LineDecides(s: State, inputs: seq<Input>, started: nat, t: State, x: Input)
    requires Undecided(s) && Undecided(t) && Told(s, inputs, started, t) && x.Hear?
    ensures LineTells(s, inputs, started, t, x, OnLine(t, x.event, x.now))
  {
    hide OnLine, LineTells, Told;
    if Answers(x) && Waits(s.proc.cfg, inputs) {
      FirstAnswerDecides(s, inputs, started, t, x);
    } else if Answers(x) {
      LateAnswerDecides(s, inputs, started, t, x);
    } else if EndsTurn(x) {
      ResultDecides(s, inputs, started, t, x);
    } else if x.event.Assistant? {
      SpeechDecides(s, inputs, started, t, x);
    } else if x.event.ModelFallback? {
      FallbackDecides(s, inputs, started, t, x);
    } else {
      OtherDecides(s, inputs, started, t, x);
    }
  }

  /** What an input does to the run of `t`. */
  ghost predicate StepTells(s: State, inputs: seq<Input>, started: nat, x: Input, u: State)
    requires s.proc.Running?
  {
    u.proc.Running? ==>
      && DecidesBy(s.proc.cfg, inputs, started, x, u.proc.run.after)
      && (u.proc.run.after.None? ==> Told(s, inputs + [x], started, u))
  }

  lemma FollowTells(s: State, inputs: seq<Input>, started: nat, x: Input, t: State, u: State)
    requires Undecided(s) && Undecided(t) && Follows(t, u) && t.stopRequested == u.stopRequested
    requires Told(s, inputs + [x], started, t) && DecidesBy(s.proc.cfg, inputs, started, x, None)
    ensures StepTells(s, inputs, started, x, u)
  {
    hide Waits, Came, Capped, StartLine, ModelRefuses, NeverSpeaks, TurnIsOver, Stops;
  }

  lemma {:induction false} ActStops(s: State, now: nat, actions: seq<Action>)
    requires s.proc.Running?
    ensures Act(s, now, actions).stopRequested == s.stopRequested
    decreases actions
  {
    if actions != [] {
      ActStops(ActOne(s, now, actions[0]), now, actions[1..]);
    }
  }

  lemma HearTells(s: State, inputs: seq<Input>, started: nat, t: State, x: Input)
    requires Undecided(s) && Undecided(t) && Told(s, inputs, started, t) && x.Hear?
    ensures StepTells(s, inputs, started, x, StepHear(t, x.event, x.written, x.now))
  {
    hide OnLine, DecidesBy, Told, OnEvent, Append, Act, Follows;
    var run := t.proc.run;
    var awaiting := !run.stopping && run.intro.None? && run.ready && run.tracker.phase.Handoff?;
    var told := Emit(t, HeardLine(x.event, awaiting, x.written));
    assert Told(s, inputs, started, told) by { SameRun(s, inputs, started, t, told); }
    LineDecides(s, inputs, started, told, x);
    var v := OnLine(told, x.event, x.now);
    var r := v.proc.run;
    if r.after.None? && r.intro.None? {
      var m := if x.event.Result? && r.tracker.phase.Handoff? then r.tracker.(noteWritten := x.written) else r.tracker;
      var reply := OnEvent(m, x.event, x.now);
      FollowRun(v, x.now, reply);
      ActStops(WithRun(v, r.(tracker := reply.machine)), x.now, reply.actions);
      FollowTells(s, inputs, started, x, v, Follow(v, x.now, reply));
    }
  }

  lemma SameRun(s: State, inputs: seq<Input>, started: nat, t: State, u: State)
    requires s.proc.Running? && t.proc.Running? && Told(s, inputs, started, t)
    requires u.proc.Running? && u.proc.cfg == t.proc.cfg && u.stopRequested == t.stopRequested
    requires u.proc.run.(tracker := t.proc.run.tracker) == t.proc.run
    ensures Told(s, inputs, started, u)
  {
  }

  lemma MarkerRun(s: State, now: nat)
    requires s.proc.Running?
    ensures Follows(s, LookForMarker(s, now)) && LookForMarker(s, now).stopRequested == s.stopRequested
  {
    hide Act, Append, OnMarker;
    var found := OnMarker(s.proc.run.tracker, now);
    FollowRun(s, now, found);
    ActStops(WithRun(s, s.proc.run.(tracker := found.machine)), now, found.actions);
  }

  lemma TrackerTick(s: State, now: nat, fifth: bool)
    requires Undecided(s) && !s.proc.run.stopping && s.proc.run.intro.None? && !s.proc.cfg.OneShotMode()
    ensures Follows(s, StepTick(s, now, fifth)) && StepTick(s, now, fifth).stopRequested == s.stopRequested
  {
    hide Follow, LookForMarker, OnTick, Follows;
    MarkerRun(s, now);
    var t := if s.proc.cfg.Rotates() && fifth then LookForMarker(s, now) else s;
    var reply := OnTick(t.proc.run.tracker, now);
    assert Follows(s, s) by { SameFollows(s); }
    FollowRun(t, now, reply);
    TickStops(t, now, reply);
    FollowsAny(s, t, Follow(t, now, reply));
  }

  lemma SameFollows(s: State)
    requires s.proc.Running?
    ensures Follows(s, s)
  {
  }

  lemma TickStops(s: State, now: nat, reply: Reply)
    requires s.proc.Running?
    ensures Follow(s, now, reply).stopRequested == s.stopRequested
  {
    ActStops(WithRun(s, s.proc.run.(tracker := reply.machine)), now, reply.actions);
  }

  lemma FollowsAny(s: State, t: State, u: State)
    requires Undecided(s) && Follows(s, t) && Follows(t, u)
    ensures Follows(s, u)
  {
  }

  lemma TickTells(s: State, inputs: seq<Input>, started: nat, t: State, x: Input)
    requires Undecided(s) && Undecided(t) && Told(s, inputs, started, t) && x.TickAt?
    ensures StepTells(s, inputs, started, x, StepTick(t, x.now, x.fifth))
  {
    AllMore(inputs, x);
    hide Append, Came, StartLine;
    var run := t.proc.run;
    if run.intro.Some? {
      WaitingTick(s, inputs, started, t, x);
    } else if s.proc.cfg.OneShotMode() {
      CappedTick(s, inputs, started, t, x);
    } else {
      hide WentOut;
      TrackerTick(t, x.now, x.fifth);
      hide StepTick, Follows;
      FollowTells(s, inputs, started, x, t, StepTick(t, x.now, x.fifth));
    }
  }

  lemma NotOutYet(cfg: Config, inputs: seq<Input>, started: nat)
    requires Waits(cfg, inputs)
    ensures forall at: nat :: !WentOut(cfg, inputs, started, at)
  {
    hide Answers;
  }

  lemma WaitingTick(s: State, inputs: seq<Input>, started: nat, t: State, x: Input)
    requires Undecided(s) && Undecided(t) && Told(s, inputs, started, t) && x.TickAt? && t.proc.run.intro.Some?
    ensures StepTells(s, inputs, started, x, StepTick(t, x.now, x.fifth))
  {
    OneKind(x);
    AllMore(inputs, x);
    NotOutYet(s.proc.cfg, inputs, started);
    hide Append, Came, StartLine, WentOut, Capped, Answers, Speaks, Compacts, FailsToCompact, FallsBack, EndsTurn;
  }

  lemma CappedTick(s: State, inputs: seq<Input>, started: nat, t: State, x: Input)
    requires Undecided(s) && Undecided(t) && Told(s, inputs, started, t) && x.TickAt?
    requires t.proc.run.intro.None? && s.proc.cfg.OneShotMode()
    ensures StepTells(s, inputs, started, x, StepTick(t, x.now, x.fifth))
  {
    OneKind(x);
    AllMore(inputs, x);
    var limit := s.proc.cfg.limits.compact;
    var at: nat := t.proc.run.deadline.value - limit;
    forall other: nat | WentOut(s.proc.cfg, inputs, started, other) ensures other == at {
      WentOutOnce(s.proc.cfg, inputs, started, other, at);
    }
    StillOut(s, inputs, started, t, x);
    assert TurnIsOver(s.proc.cfg, inputs, started, x) <==> t.proc.run.deadline.value <= x.now;
    hide Append, Came, StartLine, WentOut, Capped, Answers, Speaks, Compacts, FailsToCompact, FallsBack, EndsTurn;
  }

  lemma StopTells(s: State, inputs: seq<Input>, started: nat, t: State, x: Input)
    requires Undecided(s) && Undecided(t) && Told(s, inputs, started, t) && x.SeeStop?
    ensures StepTells(s, inputs, started, x, Transition(t, x))
  {
    OneKind(x);
    AllMore(inputs, x);
    hide Append, Came, StartLine, WentOut, Capped, StepTick, StepHear, StepPlan, Answers, Speaks, Compacts, FailsToCompact, FallsBack, EndsTurn;
    if t.proc.run.deadline.Some? {
      StillOut(s, inputs, started, t, x);
    }
  }

  lemma OtherTells(s: State, inputs: seq<Input>, started: nat, t: State, x: Input)
    requires Undecided(s) && Undecided(t) && Told(s, inputs, started, t) && !x.Hear? && !x.TickAt? && !x.SeeStop?
    ensures StepTells(s, inputs, started, x, Transition(t, x))
  {
    OneKind(x);
    AllMore(inputs, x);
    hide Append, Came, StartLine, WentOut, Capped, StepTick, StepHear, StepPlan, Answers, Speaks, Compacts, FailsToCompact, FallsBack, EndsTurn;
    if t.proc.run.deadline.Some? {
      StillOut(s, inputs, started, t, x);
    }
  }

  lemma OneStepTells(s: State, inputs: seq<Input>, started: nat, t: State, x: Input)
    requires Undecided(s) && Undecided(t) && Told(s, inputs, started, t)
    ensures StepTells(s, inputs, started, x, Transition(t, x))
  {
    hide StepTells, Told, StepHear, StepTick;
    match x {
      case Hear(_, _, _) => HearTells(s, inputs, started, t, x);
      case TickAt(_, _) => TickTells(s, inputs, started, t, x);
      case SeeStop => StopTells(s, inputs, started, t, x);
      case _ => OtherTells(s, inputs, started, t, x);
    }
  }

  lemma ToldAtStart(s: State, started: nat)
    requires Begun(s, started)
    ensures Told(s, [], started, s)
  {
    hide StartLine;
  }

  /** Of every run of claude, the supervisor knows what was heard in it. */
  lemma {:induction false} RunTells(s: State, inputs: seq<Input>, started: nat)
    requires Begun(s, started) && InRun(s, inputs)
    ensures Told(s, inputs, started, Execute(s, inputs))
    decreases inputs
  {
    hide Begun, Told, Transition;
    if inputs == [] {
      ToldAtStart(s, started);
    } else {
      var init, x := Init(inputs), Last(inputs);
      assert inputs == init + [x];
      assert Undecided(s) by { BegunIsUndecided(s, started); }
      RunTells(s, init, started);
      OneMore(s, init, x);
      OneStepTells(s, init, started, Execute(s, init), x);
    }
  }

  lemma BegunIsUndecided(s: State, started: nat)
    requires Begun(s, started)
    ensures Undecided(s)
  {
  }

  /**
    What ends a run, over every run of claude: the model refuses to serve, claude never speaks, the
    one turn of emergency mode is over, or a requested stop is seen, each exactly so; and nothing
    else decides it but the tracker, which restarts claude.
   */
  lemma EndsExactly(s: State, inputs: seq<Input>, started: nat, x: Input)
    requires Begun(s, started) && InRun(s, inputs)
    ensures var u := Execute(s, inputs + [x]);
            u.proc.Running? ==> DecidesBy(s.proc.cfg, inputs, started, x, u.proc.run.after)
  {
    hide Begun, Told, Transition, DecidesBy;
    assert Undecided(s) by { BegunIsUndecided(s, started); }
    RunTells(s, inputs, started);
    OneMore(s, inputs, x);
    OneStepTells(s, inputs, started, Execute(s, inputs), x);
  }

  // ------------------------------------------------------------------------------------
  // What becomes of the process

  /** There is a saved session, and its transcript. */
  predicate HasTranscript(disk: Disk) {
    disk.id.Some? && disk.id.value in disk.transcripts
  }

  /** The process is gone, and the history says so, with this exit code. */
  predicate LeftWith(s: State, code: int, cfg: Config) {
    s.proc.Down? && s.book.log != [] && Last(s.book.log) == Exited(code, cfg.OneShotMode(), s.stopRequested)
  }

  /** Claude exits, with a code of its own. */
  predicate Exits(x: Input) {
    x.ClaudeExits?
  }

  /**
    The exit code, over every run of claude: 79 exactly when the model refused to serve, 80 when the
    one turn of emergency mode was over, 0 when a stop was seen, 1, or 80 in emergency mode, when
    claude never spoke; claude's own code, or 80 in emergency mode, when it left undecided and
    unasked; and in no other case does the process leave, but starts claude again.
   */
  lemma CodesExactly(s: State, inputs: seq<Input>, started: nat, x: Input, exit: Input)
    requires Begun(s, started) && InRun(s, inputs) && Exits(exit)
    requires Execute(s, inputs + [x]).proc.Running? && !Undecided(Execute(s, inputs + [x]))
    ensures var cfg, v := s.proc.cfg, Transition(Execute(s, inputs + [x]), exit);
            && (ModelRefuses(cfg, inputs, x) ==> LeftWith(v, 79, cfg))
            && (TurnIsOver(cfg, inputs, started, x) ==> LeftWith(v, 80, cfg))
            && (NeverSpeaks(cfg, inputs, started, x) ==> LeftWith(v, if cfg.OneShotMode() then 80 else 1, cfg))
            && (Stops(inputs, x) ==> LeftWith(v, 0, cfg))
            && (v.proc.Down? <==> ModelRefuses(cfg, inputs, x) || TurnIsOver(cfg, inputs, started, x)
                                  || NeverSpeaks(cfg, inputs, started, x) || Stops(inputs, x))
            && (!v.proc.Down? ==> v.proc.Between? && v.proc.cfg == cfg)
  {
    assert Undecided(s) by { BegunIsUndecided(s, started); }
    EndsExactly(s, inputs, started, x);
    StopIsKnown(s, inputs, started, x);
    DecidedExit(Execute(s, inputs + [x]), exit);
    hide Execute, Transition, Begun, InRun, ModelRefuses, NeverSpeaks, TurnIsOver, LeftWith, Came;
  }

  lemma DecidedExit(u: State, exit: Input)
    requires u.proc.Running? && u.proc.run.after.Some? && Exits(exit)
    ensures var v, after, oneShot := Transition(u, exit), u.proc.run.after.value, u.proc.cfg.OneShotMode();
            && (after.Again? ==> v.proc == Between(u.proc.cfg, after.notBefore))
            && (after.Ended? ==> LeftWith(v, if oneShot && after.code == 1 then 80 else after.code, u.proc.cfg))
            && (after.Exit? ==> LeftWith(v, if oneShot && !u.stopRequested then 80 else after.code, u.proc.cfg))
  {
    hide Extend, Allowed;
  }

  /** The configuration stays, and a stop that is seen was requested. */
  lemma StopIsKnown(s: State, inputs: seq<Input>, started: nat, x: Input)
    requires Begun(s, started) && InRun(s, inputs) && Execute(s, inputs + [x]).proc.Running?
    ensures var u := Execute(s, inputs + [x]);
            u.proc.cfg == s.proc.cfg && (x.SeeStop? ==> u.stopRequested == Came(inputs, AsksToStop))
  {
    RunTells(s, inputs, started);
    OneMore(s, inputs, x);
    hide Execute, InRun, Append, Came, StepHear, StepTick;
    var t := Execute(s, inputs);
    StaysConfigured(t, x);
  }

  lemma StaysConfigured(t: State, x: Input)
    requires t.proc.Running? && Transition(t, x).proc.Running?
    ensures Transition(t, x).proc.cfg == t.proc.cfg
  {
    hide Append, OnLine, Follow, LookForMarker, OnEvent, OnTick;
  }

  lemma OwnCode(s: State, inputs: seq<Input>, started: nat, exit: Input)
    requires Begun(s, started) && InRun(s, inputs) && Exits(exit)
    ensures var cfg, v := s.proc.cfg, Execute(s, inputs + [exit]);
            LeftWith(v, if cfg.OneShotMode() && !Came(inputs, AsksToStop) then 80 else exit.code, cfg)
  {
    assert Undecided(s) by { BegunIsUndecided(s, started); }
    RunTells(s, inputs, started);
    OneMore(s, inputs, exit);
    hide Execute, Begun, InRun, Came, Extend, Allowed;
  }

  /** A stop that is seen while a restart is due makes the process leave with 0 instead. */
  lemma StopOverrules(s: State, exit: Input)
    requires s.proc.Running? && s.stopRequested && Exits(exit)
    requires s.proc.run.after.Some? && s.proc.run.after.value.Again?
    ensures LeftWith(Transition(Transition(s, SeeStop), exit), 0, s.proc.cfg)
  {
    hide Extend, Allowed;
  }

  /**
    Claude is started exactly if no stop is requested, the start can be made, and in emergency mode
    there is a conversation to resume; else the process leaves, with 0 for a stop, 80 in emergency
    mode and 1 else.
   */
  lemma StartsExactly(s: State, cfg: Config, newId: string, now: nat, spawns: bool)
    requires s.proc.Between? && s.proc.cfg == cfg
    ensures var t, refuses := Transition(s, Plan(newId, now, spawns)), cfg.OneShotMode() && !HasTranscript(s.disk);
            && (t.proc.Running? <==> !s.stopRequested && spawns && !refuses)
            && (t.proc.Running? ==> Begun(t, now) && t.proc.cfg == cfg)
            && (s.stopRequested ==> LeftWith(t, 0, cfg))
            && (!s.stopRequested && (!spawns || refuses) ==> LeftWith(t, if cfg.OneShotMode() then 80 else 1, cfg))
  {
    hide Extend, Allowed, PlanStart, Begin, Begun;
    var p := if cfg.OneShotMode() then Planned(s, Start(if s.disk.id.Some? then s.disk.id.value else "", true, Resumed, 0, false, false))
             else PlanStart(s, newId);
    assert !s.stopRequested ==> !p.state.stopRequested by { PlanStops(s, newId); }
    if !s.stopRequested {
      BeginsRun(p.state, cfg, p.start, s.proc.notBefore, now);
    }
  }

  lemma PlanStops(s: State, newId: string)
    ensures PlanStart(s, newId).state.stopRequested == s.stopRequested
  {
    hide Append;
  }

  /** Wherever a process died, and whether or not it was asked to stop, the next one starts claude. */
  lemma EveryBootStarts(s: State, cfg: Config, newId: string, now: nat)
    ensures var d := Transition(s, Die);
            var t := Transition(Transition(d, Boot(cfg)), Plan(newId, now, true));
            && d.disk == s.disk
            && if cfg.OneShotMode() && !HasTranscript(s.disk) then LeftWith(t, 80, cfg) else Begun(t, now) && t.proc.cfg == cfg
  {
    hide StepPlan, Begun, Append;
    StartsExactly(Transition(Transition(s, Die), Boot(cfg)), cfg, newId, now, true);
  }
}
