/**
  The supervisor of one session over all its runs (crates/silta-session/src/lib.rs): the
  disk, the starts it plans from it, the run of claude, and what the tracker's actions do
  to both.

  One input is one atomic step of the supervisor or of its surroundings: a line of claude,
  a tick, a stop requested and seen, claude's exit, the death of the process at any moment,
  a boot with any configuration, the marker written or removed by others, a transcript that
  appears or is lost. Whether the note was written is an input too. Claude, the clock and
  the operator are unconstrained. The history of the steps is part of the state.
 */
module Supervisor {
  import opened Prelude
  import opened Rotation
  import opened History

  datatype Emergency = NoEmergency | OneShot(compacts: bool) | Prompt

  datatype Config = Config(limits: Limits, window: Option<nat>, windowWait: nat, emergency: Emergency)
  {
    predicate OneShotMode() {
      emergency.OneShot?
    }

    predicate Rotates() {
      limits.enabled && !OneShotMode()
    }
  }

  datatype Disk = Disk(id: Option<string>, marker: bool, next: Next, transcripts: set<string>)
  {
    /** The saved id has a transcript. */
    predicate Resumable() {
      id.Some? && id.value in transcripts
    }

    function Cleared(): Disk {
      this.(marker := false, next := Normal)
    }
  }

  datatype Start = Start(id: string, resume: bool, kind: Kind, attempts: nat, handoff: bool, snapshot: bool)

  /** One run of claude. `stdin` is open until the run is stopped or ended. */
  datatype Run = Run(
    start: Start,
    stdin: bool,
    stopping: bool,
    after: Option<Outcome>,
    deadline: Option<nat>,
    tracker: Machine,
    intro: Option<Line>,
    introDeadline: nat,
    ready: bool,
    compacted: bool,
    compactFailed: bool)

  datatype Proc =
    | Down
    | Between(cfg: Config, notBefore: Option<nat>)
    | Running(cfg: Config, run: Run)

  datatype State = State(
    proc: Proc,
    stopRequested: bool,
    disk: Disk,
    book: Book)

  datatype Input =
    | Boot(cfg: Config)
    | RequestStop
    | Plan(newId: string, now: nat, spawns: bool)
    | Hear(event: Event, written: bool, now: nat)
    | TickAt(now: nat, fifth: bool)
    | SeeStop
    | ClaudeExits(code: int, noConversation: bool)
    | Die
    | WriteMarker
    | RemoveMarker
    | TranscriptAppears(id: string)
    | TranscriptLost(id: string)

  /** Before the first boot: no record of a rotation, whatever else is on disk. */
  predicate Initially(s: State) {
    && s.proc.Down? && s.disk.next.Normal?
    && s.book == Book([], Nothing, true)
  }

  function Emit(s: State, e: Entry): State {
    s.(book := Append(s.book, e))
  }

  // ------------------------------------------------------------------------------------
  // Run

  function WithRun(s: State, run: Run): State
    requires s.proc.Running?
  {
    s.(proc := s.proc.(run := run))
  }

  /** Writes to claude, as long as its stdin is open. */
  function Send(s: State, line: Line): (t: State)
    requires s.proc.Running?
    ensures t.proc == s.proc
  {
    if s.proc.run.stdin then Emit(s, Sent(line)) else s
  }

  /** The graceful stop: EOF on stdin. */
  function BeginStop(run: Run): Run {
    run.(stdin := false, stopping := true)
  }

  function Decide(s: State, outcome: Outcome): (t: State)
    requires s.proc.Running?
    ensures t.proc.Running? && t.proc.cfg == s.proc.cfg
  {
    Emit(WithRun(s, BeginStop(s.proc.run).(after := Some(outcome))), Decided(outcome))
  }

  /** Ends the run at once, unless it is ending already. */
  function End(s: State, code: int): (t: State)
    requires s.proc.Running?
    ensures t.proc.Running? && t.proc.cfg == s.proc.cfg
  {
    if s.proc.run.after.Some? then s
    else
      var t := Emit(Decide(s, Ended(code)), Interrupted);
      WithRun(t, t.proc.run.(intro := None))
  }

  /** Nothing is left to do in one-shot mode. */
  function EmergencyDone(s: State): (t: State)
    requires s.proc.Running?
    ensures t.proc.Running? && t.proc.cfg == s.proc.cfg
  {
    if s.proc.run.after.Some? then s else Emit(Decide(s, Ended(EXIT_EMERGENCY)), Interrupted)
  }

  function SendFirst(s: State, line: Line, now: nat): (t: State)
    requires s.proc.Running?
    ensures t.proc.Running? && t.proc.cfg == s.proc.cfg
  {
    var run := s.proc.run;
    Send(if s.proc.cfg.OneShotMode() then WithRun(s, run.(deadline := Some(now + s.proc.cfg.limits.compact))) else s, line)
  }

  /** Claude says how large its window is: large enough for the first line, or the run ends. */
  function AnswerWindow(s: State, maxTokens: Option<nat>, now: nat): (t: State)
    requires s.proc.Running?
    ensures t.proc.Running? && t.proc.cfg == s.proc.cfg
  {
    var run, want := s.proc.run, s.proc.cfg.window;
    if want.None? || run.intro.None? then WithRun(s, run.(intro := None))
    else
      var t := WithRun(s, run.(intro := None));
      if maxTokens.Some? && maxTokens.value >= want.value then SendFirst(t, run.intro.value, now)
      else End(t, EXIT_MODEL)
  }

  function OpenChannel(s: State): (t: State)
    requires s.proc.Running?
    ensures t.proc.Running? && t.proc.cfg == s.proc.cfg
  {
    if s.proc.run.after.Some? then s else Emit(WithRun(s, s.proc.run.(ready := true)), ChannelOpened)
  }

  function ActOne(s: State, now: nat, action: Action): (t: State)
    requires s.proc.Running?
    ensures t.proc.Running? && t.proc.cfg == s.proc.cfg
  {
    match action
    case MarkPending => s.(disk := s.disk.(marker := true))
    case Snapshot(moment) => Emit(s, Snapped(moment))
    case RequestHandoff => Send(s, HandoffRequest)
    case AwaitHandoff => s
    case Compact => Send(s, CompactCommand)
    case AwaitCompaction => s
    case Compacted =>
      Send(Emit(s.(disk := s.disk.Cleared()), RotationOver(ByCompaction)), CompactedNote)
    case Retry(step, attempts, handoff) =>
      var next := NextRetry(step.Wait?, attempts, handoff);
      Decide(Emit(s.(disk := s.disk.(next := next)), Recorded(next)), Again(None))
    case Postpone(_, attempts, handoff) =>
      var next := Postponed(attempts, handoff);
      Decide(Emit(s.(disk := s.disk.(next := next)), Recorded(next)), Again(Some(now + s.proc.cfg.limits.retryPause)))
    case GiveUp(_, _, handoff) =>
      var next := Fresh(handoff);
      Decide(Emit(s.(disk := s.disk.(next := next)), Recorded(next)), Again(None))
  }

  function Act(s: State, now: nat, actions: seq<Action>): (t: State)
    requires s.proc.Running?
    ensures t.proc.Running? && t.proc.cfg == s.proc.cfg
    decreases actions
  {
    if actions == [] then s else Act(ActOne(s, now, actions[0]), now, actions[1..])
  }

  /** The tracker has answered a call. */
  function Follow(s: State, now: nat, reply: Reply): (t: State)
    requires s.proc.Running?
    ensures t.proc.Running? && t.proc.cfg == s.proc.cfg
  {
    Act(WithRun(s, s.proc.run.(tracker := reply.machine)), now, reply.actions)
  }

  // ------------------------------------------------------------------------------------
  // Starts

  function StartTracker(cfg: Config, start: Start, marker: bool, notBefore: Option<nat>, now: nat): Machine {
    var idle := NewMachine(cfg.limits.(enabled := cfg.Rotates()), now);
    if start.kind.RetryStart? then StartRetrying(idle, now, start.attempts, start.handoff)
    else if cfg.Rotates() && marker then StartPending(idle, now, notBefore, start.attempts, start.handoff)
    else idle
  }

  function StartLine(cfg: Config, start: Start): Line {
    if cfg.OneShotMode() || (cfg.emergency.Prompt? && start.kind.Resumed?) then EmergencyLine else Intro(start.kind)
  }

  /** Claude is started: the tracker, and the snapshot still due before a retried handoff. */
  function Launch(s: State, cfg: Config, start: Start, notBefore: Option<nat>, now: nat): (t: State)
    ensures t.proc.Running? && t.proc.cfg == cfg
  {
    var tracker := StartTracker(cfg, start, s.disk.marker, notBefore, now);
    var run := Run(start, true, false, None, None, tracker, None, now + cfg.windowWait, false, false, false);
    var t := Emit(s.(proc := Running(cfg, run)), Spawned(cfg.OneShotMode(), cfg.window));
    if start.kind.RetryStart? && start.snapshot then Emit(t, Snapped(BeforeHandoff)) else t
  }

  /** The first line waits for the window check when a window is configured. */
  function Begin(s: State, cfg: Config, start: Start, notBefore: Option<nat>, now: nat): (t: State)
    ensures t.proc.Running? && t.proc.cfg == cfg
  {
    var t := Launch(s, cfg, start, notBefore, now);
    var line := StartLine(cfg, start);
    if cfg.window.Some? then WithRun(t, t.proc.run.(intro := Some(line))) else SendFirst(t, line, now)
  }

  datatype Planned = Planned(state: State, start: Start)

  function StartFresh(s: State, newId: string, kind: Kind): (p: Planned)
    ensures p.state.proc == s.proc
  {
    var disk := s.disk;
    Planned(Emit(s.(disk := disk.(id := Some(newId))), NewId(disk.id, disk.Resumable(), newId, kind)),
            Start(newId, false, kind, 0, false, false))
  }

  /** A new session takes the place of the one whose rotation gave up. */
  function RotatedOut(s: State, newId: string, handoff: bool): (p: Planned)
    ensures p.state.proc == s.proc
  {
    var p := StartFresh(s, newId, AfterRotation(handoff));
    p.(state := Emit(p.state.(disk := p.state.disk.Cleared()), RotationOver(ByNewId)))
  }

  /** The next start, as the disk has it. */
  function PlanStart(s: State, newId: string): (p: Planned)
    ensures p.state.proc == s.proc
  {
    var disk := s.disk;
    match disk.next
    case Fresh(handoff) => RotatedOut(s, newId, handoff)
    case NextRetry(snapshot, attempts, handoff) =>
      if disk.Resumable() then Planned(s, Start(disk.id.value, true, RetryStart, attempts, handoff, snapshot))
      else RotatedOut(s, newId, handoff)
    case _ =>
      if !disk.Resumable() then
        StartFresh(Emit(s.(disk := disk.Cleared()), RotationOver(ByNewId)), newId, NewSession)
      else if !disk.marker then
        // Without the marker there is nothing to carry on, whatever the record says.
        Planned(Emit(s.(disk := disk.(next := Normal)), RotationOver(NothingPending)),
                Start(disk.id.value, true, Resumed, 0, false, false))
      else if disk.next.Postponed? then
        Planned(s, Start(disk.id.value, true, Resumed, disk.next.attempts, disk.next.handoff, false))
      else
        Planned(s, Start(disk.id.value, true, Resumed, 0, false, false))
  }

  /** The end of the supervisor's process. */
  function Leave(s: State, code: int, oneShot: bool): (t: State)
    ensures t.proc.Down?
  {
    Emit(s.(proc := Down), Exited(code, oneShot, s.stopRequested))
  }

  function StepPlan(s: State, newId: string, now: nat, spawns: bool): (t: State)
    requires s.proc.Between?
  {
    var cfg, notBefore := s.proc.cfg, s.proc.notBefore;
    if s.stopRequested then Leave(Emit(s, Interrupted), 0, cfg.OneShotMode())
    else if cfg.OneShotMode() && !s.disk.Resumable() then Leave(Emit(s, Interrupted), EXIT_EMERGENCY, true)
    else
      var p := if cfg.OneShotMode() then Planned(s, Start(s.disk.id.value, true, Resumed, 0, false, false))
               else PlanStart(s, newId);
      if spawns then Begin(p.state, cfg, p.start, notBefore, now)
      else Leave(Emit(p.state, Interrupted), if cfg.OneShotMode() then EXIT_EMERGENCY else 1, cfg.OneShotMode())
  }

  // ------------------------------------------------------------------------------------
  // The loop of one run

  /** What a line means apart from the rotation. */
  function OnLine(s: State, event: Event, now: nat): (t: State)
    requires s.proc.Running?
    ensures t.proc.Running? && t.proc.cfg == s.proc.cfg
  {
    var cfg, run := s.proc.cfg, s.proc.run;
    var oneShot := cfg.OneShotMode();
    match event
    case ContextUsage(ours, maxTokens) => if ours then AnswerWindow(s, maxTokens, now) else s
    case ModelFallback(fatal) => if fatal then End(s, EXIT_MODEL) else s
    case Boundary(auto) => if oneShot && !auto then WithRun(s, run.(compacted := true)) else s
    case CompactionFailed => if oneShot then WithRun(s, run.(compactFailed := true)) else s
    case Result(isError, _) =>
      if oneShot then
        if !isError && cfg.emergency.compacts && !run.compacted && !run.compactFailed then s
        else EmergencyDone(if run.compacted then Emit(s.(disk := s.disk.Cleared()), RotationOver(ByHand)) else s)
      else if !run.ready then End(s, 1) else s
    case Assistant(subagent, _, synthetic) =>
      if !oneShot && !subagent && !synthetic && !run.ready then OpenChannel(s) else s
    case _ => s
  }

  function StepHear(s: State, event: Event, written: bool, now: nat): (t: State)
    requires s.proc.Running?
  {
    var run := s.proc.run;
    var awaiting := !run.stopping && run.intro.None? && run.ready && run.tracker.phase.Handoff?;
    var t := OnLine(Emit(s, HeardLine(event, awaiting, written)), event, now);
    var r := t.proc.run;
    if r.stopping || r.intro.Some? then t
    else
      var m := if event.Result? && r.tracker.phase.Handoff? then r.tracker.(noteWritten := written) else r.tracker;
      Follow(t, now, OnEvent(m, event, now))
  }

  /** Every fifth tick looks for the marker. */
  function LookForMarker(s: State, now: nat): (t: State)
    requires s.proc.Running?
    ensures t.proc.Running? && t.proc.cfg == s.proc.cfg
  {
    var m := s.proc.run.tracker;
    if s.disk.marker && !m.pending then Follow(s, now, OnMarker(m, now))
    else if !s.disk.marker && Cancels(m) then
      Emit(WithRun(s.(disk := s.disk.(next := Normal)), s.proc.run.(tracker := m.Done())), RotationOver(ByHand))
    else s
  }

  function StepTick(s: State, now: nat, fifth: bool): (t: State)
    requires s.proc.Running?
  {
    var cfg, run := s.proc.cfg, s.proc.run;
    if run.stopping then s
    else if run.intro.Some? then if now >= run.introDeadline then End(s, 1) else s
    else if cfg.OneShotMode() then
      if run.deadline.Some? && now >= run.deadline.value then End(s, EXIT_EMERGENCY) else s
    else
      var t := if cfg.Rotates() && fifth then LookForMarker(s, now) else s;
      Follow(t, now, OnTick(t.proc.run.tracker, now))
  }

  /** A requested stop is seen, and overrules a restart that was decided. */
  function StepSeeStop(s: State): (t: State)
    requires s.proc.Running?
  {
    var after := s.proc.run.after;
    if after.Some? && !after.value.Again? then s else Emit(Decide(s, Exit(0)), Interrupted)
  }

  /** Claude has exited: the process leaves, or starts claude again. */
  function StepExit(s: State, code: int, noConversation: bool): (t: State)
    requires s.proc.Running?
  {
    var cfg, run := s.proc.cfg, s.proc.run;
    var oneShot := cfg.OneShotMode();
    if run.after.None? then
      var disk := if run.start.resume && noConversation && !oneShot then s.disk.(id := None) else s.disk;
      var t := Emit(s.(disk := disk), Interrupted);
      Leave(t, if oneShot && !s.stopRequested then EXIT_EMERGENCY else code, oneShot)
    else
      match run.after.value
      case Again(notBefore) => s.(proc := Between(cfg, notBefore))
      case Exit(decided) =>
        Leave(s, if oneShot && !s.stopRequested then EXIT_EMERGENCY else decided, oneShot)
      case Ended(decided) => Leave(s, if oneShot && decided == 1 then EXIT_EMERGENCY else decided, oneShot)
  }

  function Transition(s: State, input: Input): State
  {
    match input
    case Boot(cfg) =>
      if s.proc.Down? then Emit(s.(proc := Between(cfg, None), stopRequested := false), Booted) else s
    case RequestStop => if s.proc.Down? then s else s.(stopRequested := true)
    case Plan(newId, now, spawns) => if s.proc.Between? then StepPlan(s, newId, now, spawns) else s
    case Hear(event, written, now) => if s.proc.Running? then StepHear(s, event, written, now) else s
    case TickAt(now, fifth) => if s.proc.Running? then StepTick(s, now, fifth) else s
    case SeeStop => if s.proc.Running? && s.stopRequested then StepSeeStop(s) else s
    case ClaudeExits(code, noConversation) => if s.proc.Running? then StepExit(s, code, noConversation) else s
    case Die => if s.proc.Down? then s else Emit(s.(proc := Down), Interrupted)
    case WriteMarker => s.(disk := s.disk.(marker := true))
    case RemoveMarker => s.(disk := s.disk.(marker := false))
    case TranscriptAppears(id) => s.(disk := s.disk.(transcripts := s.disk.transcripts + {id}))
    case TranscriptLost(id) => s.(disk := s.disk.(transcripts := s.disk.transcripts - {id}))
  }

  function Execute(s: State, inputs: seq<Input>): State
    decreases inputs
  {
    if inputs == [] then s else Execute(Transition(s, inputs[0]), inputs[1..])
  }
}
