/**
  Every history of the supervisor is safe, whatever claude, the clock, the operator and the
  surroundings do, and wherever the process is stopped or killed.
 */
module SupervisorSafety {
  import opened Prelude
  import opened Rotation
  import opened History
  import opened Supervisor

  // ------------------------------------------------------------------------------------
  // The invariant

  /** The record on disk accounts for the attempts spent. */
  predicate DiskAgrees(next: Next, sum: Summary) {
    match next
    case Normal => sum.spent == 0
    case NextRetry(snapshot, attempts, handoff) =>
      0 < attempts == sum.spent < HANDOFF_ATTEMPTS && (snapshot || sum.snapped) && (handoff ==> sum.noted)
    case Postponed(attempts, handoff) =>
      0 < attempts == sum.spent < HANDOFF_ATTEMPTS && sum.snapped && (handoff ==> sum.noted)
    case Fresh(handoff) => sum.spent == HANDOFF_ATTEMPTS && (handoff ==> sum.noted)
  }

  /** A note written and never interrupted since is on record. */
  predicate NoteRecorded(next: Next, sum: Summary) {
    sum.noteKept ==> !next.Normal? && next.handoff
  }

  predicate AskedInBounds(sum: Summary, more: nat) {
    sum.asked <= sum.spent + sum.interruptions + more
  }

  /** The tracker of a run still undecided agrees with the history. */
  predicate TrackerAgrees(m: Machine, sum: Summary, unsent: bool) {
    && m.pending == !m.phase.Idle?
    && (if m.phase.Idle? then
          m.attempts == 0 && !m.handoff && !sum.noteKept && (m.limits.enabled ==> sum.spent == 0)
        else
          m.attempts == sum.spent < HANDOFF_ATTEMPTS && HonestFlag(sum, m.handoff)
          && (m.attempts == 0 ==> m.limits.enabled))
    && (match m.phase
        case Idle => AskedInBounds(sum, 0)
        case Waiting(_) => AskedInBounds(sum, 0) && (m.attempts > 0 ==> sum.snapped)
        case Handoff(_) => AskedInBounds(sum, if unsent then 0 else 1) && sum.snapped
        case Compacting(_, boundary, _) =>
          AskedInBounds(sum, 1) && sum.snapped && sum.compacting && (boundary ==> sum.boundary))
  }

  /** A run still undecided, with its tracker at `m`. */
  predicate Undecided(s: State, m: Machine) {
    && s.book.safe && DiskAgrees(s.disk.next, s.book.sum)
    && s.proc.Running? && s.proc.run.after.None? && !s.proc.run.stopping && s.proc.run.stdin
    && s.book.sum.decided.None? && s.book.sum.window == s.proc.cfg.window
    && m.limits.enabled == s.proc.cfg.Rotates()
    && (s.proc.cfg.OneShotMode() ==> m.phase.Idle?)
  }

  /** Undecided, and past the window check. */
  predicate Open(s: State, m: Machine) {
    && Undecided(s, m) && s.proc.run.intro.None? && s.book.sum.windowSeen
  }

  predicate DecidedRun(s: State)
    requires s.proc.Running? && s.proc.run.after.Some?
  {
    var cfg, run := s.proc.cfg, s.proc.run;
    && run.stopping && !run.stdin && s.book.sum.decided == run.after && s.book.sum.window == cfg.window
    && AskedInBounds(s.book.sum, 0)
    && (if run.after.value.Again? then RestartReady(s, cfg) else !s.book.sum.noteKept)
    && (cfg.OneShotMode() && run.after.value.Ended? ==>
        run.after.value.code == 1 || run.after.value.code == EXIT_MODEL || run.after.value.code == EXIT_EMERGENCY)
    && (run.after.value.Exit? ==> s.stopRequested)
  }

  predicate RestartReady(s: State, cfg: Config) {
    && NoteRecorded(s.disk.next, s.book.sum) && !cfg.OneShotMode()
    && (s.disk.next.Postponed? && s.book.sum.noteKept ==> cfg.Rotates())
  }

  predicate FirstLine(cfg: Config, run: Run) {
    run.intro.Some? ==>
      && cfg.window.Some?
      && (run.intro.value.Intro? || run.intro.value.EmergencyLine?)
      && (AsksForHandoff(run.intro.value) ==> run.tracker.phase.Handoff?)
      && !run.tracker.phase.Compacting?
  }

  predicate Inv(s: State) {
    && s.book.safe && DiskAgrees(s.disk.next, s.book.sum)
    && (match s.proc
        case Down => AskedInBounds(s.book.sum, 0) && !s.book.sum.noteKept
        case Between(cfg, _) =>
          && AskedInBounds(s.book.sum, 0)
          && (if cfg.OneShotMode() then s.book.sum.spawns == 0 && !s.book.sum.noteKept else RestartReady(s, cfg))
        case Running(cfg, run) =>
          if run.after.Some? then DecidedRun(s)
          else
            && Undecided(s, run.tracker) && FirstLine(cfg, run)
            && TrackerAgrees(run.tracker, s.book.sum, run.intro.Some?)
            && (run.intro.None? ==> s.book.sum.windowSeen))
  }

  // ------------------------------------------------------------------------------------
  // What single entries do to the history

  lemma AfterInterruption(b: Book)
    ensures var t := Append(b, Interrupted);
            t.safe == b.safe && t.sum == b.sum.(last := Some(Interrupted), interruptions := b.sum.interruptions + 1, noteKept := false)
  {
  }

  lemma AfterDecision(b: Book, outcome: Outcome)
    ensures var t := Append(b, Decided(outcome));
            && t.sum == b.sum.(last := Some(Decided(outcome)), decided := Some(outcome))
            && t.safe == (b.safe && (b.sum.decided.None? || (b.sum.decided.value.Again? && outcome == Exit(0))))
  {
  }

  lemma AfterRecord(b: Book, next: Next)
    ensures var t := Append(b, Recorded(next));
            && t.sum == b.sum.(last := Some(Recorded(next)), spent := b.sum.spent + 1)
            && t.safe == (b.safe && Allowed(b.sum, Recorded(next)))
  {
    hide Allowed;
  }

  lemma AfterExit(b: Book, code: int, oneShot: bool, stopRequested: bool)
    ensures var e := Exited(code, oneShot, stopRequested);
            var t := Append(b, e);
            && t.sum == b.sum.(last := Some(e))
            && t.safe == (b.safe && (oneShot && !stopRequested ==> code == EXIT_EMERGENCY || code == EXIT_MODEL))
  {
  }

  lemma AfterSpawn(b: Book, oneShot: bool, window: Option<nat>)
    ensures var e := Spawned(oneShot, window);
            var t := Append(b, e);
            && t.sum == b.sum.(last := Some(e), decided := None, window := window, windowSeen := window.None?,
                               compacting := false, boundary := false, spawns := b.sum.spawns + 1)
            && t.safe == (b.safe && (oneShot ==> b.sum.spawns == 0))
  {
  }

  lemma AfterSnapshot(b: Book, moment: Moment)
    ensures var t := Append(b, Snapped(moment));
            t.safe == b.safe && t.sum == b.sum.(last := Some(Snapped(moment)), snapped := b.sum.snapped || moment.BeforeHandoff?)
  {
  }

  lemma AfterBoot(b: Book)
    ensures var t := Append(b, Booted); t.safe == b.safe && t.sum == b.sum.(last := Some(Booted), spawns := 0)
  {
  }

  lemma AfterOpening(b: Book)
    ensures var t := Append(b, ChannelOpened);
            t.safe == (b.safe && b.sum.decided.None?) && t.sum == b.sum.(last := Some(ChannelOpened))
  {
  }

  // ------------------------------------------------------------------------------------
  // The tracker's answers

  lemma ActSplit(s: State, now: nat, action: Action, rest: seq<Action>)
    requires s.proc.Running?
    ensures Act(s, now, [action] + rest) == Act(ActOne(s, now, action), now, rest)
  {
    assert ([action] + rest)[1..] == rest;
  }

  lemma ActOnly(s: State, now: nat, action: Action)
    requires s.proc.Running?
    ensures Act(s, now, [action]) == ActOne(s, now, action)
  {
  }

  lemma ActBoth(s: State, now: nat, a: Action, b: Action)
    requires s.proc.Running?
    ensures Act(s, now, [a, b]) == ActOne(ActOne(s, now, a), now, b)
  {
    assert [a, b][1..] == [b];
    ActOnly(ActOne(s, now, a), now, b);
  }

  /** A record that accounts for one more attempt decides the run. */
  lemma RecordKeeps(s: State, m: Machine, next: Next, outcome: Outcome)
    requires Open(s, m) && !s.proc.cfg.OneShotMode() && AskedInBounds(s.book.sum, 1) && outcome.Again?
    requires Allowed(s.book.sum, Recorded(next)) && DiskAgrees(next, s.book.sum.(spent := s.book.sum.spent + 1))
    requires NoteRecorded(next, s.book.sum) && (next.Postponed? ==> s.proc.cfg.Rotates())
    ensures Inv(Decide(Emit(s.(disk := s.disk.(next := next)), Recorded(next)), outcome))
  {
    AfterRecord(s.book, next);
    AfterDecision(Append(s.book, Recorded(next)), outcome);
    hide Append, Allowed, TrackerAgrees, FirstLine;
  }

  /** A spent attempt is recorded, and the run is decided. */
  lemma SpendingKeeps(s: State, m: Machine, now: nat, action: Action)
    requires Open(s, m) && !s.proc.cfg.OneShotMode() && AskedInBounds(s.book.sum, 1)
    requires HonestFlag(s.book.sum, m.handoff) && s.book.sum.spent < HANDOFF_ATTEMPTS && (s.book.sum.spent == 0 ==> m.limits.enabled)
    requires s.book.sum.snapped || (action.Retry? && action.step.Wait?) || action.GiveUp?
    requires action.Retry? || action.Postpone? || action.GiveUp?
    requires action.handoff == m.handoff
    requires if action.GiveUp? then s.book.sum.spent + 1 == HANDOFF_ATTEMPTS
             else action.attempts == s.book.sum.spent + 1 < HANDOFF_ATTEMPTS
    ensures Inv(ActOne(s, now, action))
  {
    hide Append, Inv, Decide;
    match action
    case Retry(step, attempts, handoff) => RecordKeeps(s, m, NextRetry(step.Wait?, attempts, handoff), Again(None));
    case Postpone(_, attempts, handoff) =>
      RecordKeeps(s, m, Postponed(attempts, handoff), Again(Some(now + s.proc.cfg.limits.retryPause)));
    case GiveUp(_, _, handoff) => RecordKeeps(s, m, Fresh(handoff), Again(None));
  }

  /** The machine a cut or a failure leaves does not matter: the run is decided. */
  lemma CutKeeps(s: State, m: Machine, now: nat, r: Reply, step: Step)
    requires Open(s, m) && TrackerAgrees(m, s.book.sum, false) && !m.phase.Idle?
    requires r == Cut(m, step) || r == Failed(m, step, now)
    requires m.phase.Waiting? ==> step == Wait && r == Cut(m, step)
    ensures Inv(Follow(s, now, r))
  {
    var t := WithRun(s, s.proc.run.(tracker := r.machine));
    ActOnly(t, now, r.actions[0]);
    SpendingKeeps(t, m, now, r.actions[0]);
  }

  lemma RequestKeeps(s: State, m: Machine, now: nat)
    requires Open(s, m) && TrackerAgrees(m, s.book.sum, false) && m.phase.Waiting?
    requires !m.Paused(now) && m.Quiet()
    ensures Inv(Follow(s, now, Advance(m, now)))
  {
    var r := Advance(m, now);
    var t := WithRun(s, s.proc.run.(tracker := r.machine));
    if m.attempts == 0 {
      ActBoth(t, now, Snapshot(BeforeHandoff), RequestHandoff);
    } else {
      ActOnly(t, now, RequestHandoff);
    }
  }

  lemma AdvanceKeeps(s: State, m: Machine, now: nat)
    requires Open(s, m) && TrackerAgrees(m, s.book.sum, false)
    ensures Inv(Follow(s, now, Advance(m, now)))
  {
    var r := Advance(m, now);
    if r.actions == [] {
      assert r.machine == m;
      assert Follow(s, now, r) == WithRun(s, s.proc.run.(tracker := m));
    } else {
      match m.phase
      case Idle =>
      case Waiting(_) =>
        if m.Quiet() {
          RequestKeeps(s, m, now);
        } else {
          CutKeeps(s, m, now, r, Wait);
        }
      case Handoff(_) => CutKeeps(s, m, now, r, HandoffTurn);
      case Compacting(_, _, _) => CutKeeps(s, m, now, r, Compaction);
    }
  }

  /** The end of a turn in the Handoff phase; `was` is the history before the line. */
  lemma HandoffTurnKeeps(s: State, m: Machine, was: Summary, e: Entry, now: nat)
    requires Open(s, m) && TrackerAgrees(m, was, false) && m.phase.Handoff?
    requires s.book.sum == Extend(was, e)
    requires e.HeardLine? && e.event.Result? && e.awaiting && e.written == m.noteWritten
    ensures Inv(Follow(s, now, TurnEnd(m, e.event.isError, now)))
  {
    var r := TurnEnd(m, e.event.isError, now);
    var t := WithRun(s, s.proc.run.(tracker := r.machine));
    if e.event.isError {
      CutKeeps(s, m, now, r, HandoffTurn);
    } else if m.noteWritten {
      ActBoth(t, now, Snapshot(AfterHandoff), Compact);
    } else {
      ActOnly(t, now, AwaitHandoff);
    }
  }

  lemma CompactionTurnKeeps(s: State, m: Machine, isError: bool, now: nat)
    requires Open(s, m) && TrackerAgrees(m, s.book.sum, false) && m.phase.Compacting?
    requires s.book.sum.last.Some? && s.book.sum.last.value.HeardLine? && s.book.sum.last.value.event.Result?
    ensures Inv(Follow(s, now, TurnEnd(m, isError, now)))
  {
    var r := TurnEnd(m, isError, now);
    var t := WithRun(s, s.proc.run.(tracker := r.machine));
    if m.phase.boundary {
      ActOnly(t, now, Compacted);
    } else if m.phase.failed || isError {
      CutKeeps(s, m, now, r, Compaction);
    } else {
      ActOnly(t, now, AwaitCompaction);
    }
  }

  // ------------------------------------------------------------------------------------
  // One line of claude

  lemma AfterHearing(was: Summary, e: Entry)
    requires e.HeardLine?
    ensures var t := Extend(was, e);
            && t.snapped == was.snapped && t.spent == was.spent && t.asked == was.asked && t.interruptions == was.interruptions
            && t.decided == was.decided && t.window == was.window && t.compacting == was.compacting && t.spawns == was.spawns
            && t.noted == (was.noted || WroteNote(e)) && t.noteKept == (was.noteKept || WroteNote(e))
            && t.boundary == (was.boundary || (was.compacting && e.event == Boundary(false)))
            && (was.windowSeen ==> t.windowSeen) && t.last == Some(e)
  {
    hide WroteNote;
  }

  /** Hearing a line that is not the end of an awaited turn. */
  lemma HearingKeepsTracker(m: Machine, was: Summary, e: Entry, now: nat, unsent: bool)
    requires TrackerAgrees(m, was, unsent) && e.HeardLine? && !WroteNote(e)
    requires unsent ==> !m.phase.Compacting?
    ensures TrackerAgrees(m, Extend(was, e), unsent)
    ensures !unsent ==> TrackerAgrees(Noted(m, e.event, now), Extend(was, e), false)
  {
    AfterHearing(was, e);
    hide Extend, WroteNote;
    if !unsent {
      NotedAgreesWith(m, Extend(was, e), e.event, now);
    }
  }

  lemma NotedAgreesWith(m: Machine, sum: Summary, event: Event, now: nat)
    requires TrackerAgrees(m, sum, false)
    requires m.phase.Compacting? && event == Boundary(false) ==> sum.boundary
    ensures TrackerAgrees(Noted(m, event, now), sum, false)
  {
  }

  /** What hearing a line leaves as it was. */
  lemma HearingKeeps(s: State, e: Entry)
    requires Inv(s) && s.proc.Running? && e.HeardLine?
    requires e.awaiting ==> s.proc.run.after.None? && s.proc.run.intro.None? && s.proc.run.ready
    ensures var t := Emit(s, e);
            && t.book.safe && t.proc == s.proc && t.disk == s.disk && t.stopRequested == s.stopRequested
            && DiskAgrees(t.disk.next, t.book.sum)
            && t.book.sum.spent == s.book.sum.spent && t.book.sum.asked == s.book.sum.asked
            && t.book.sum.interruptions == s.book.sum.interruptions && t.book.sum.decided == s.book.sum.decided
            && t.book.sum.window == s.book.sum.window && (s.book.sum.windowSeen ==> t.book.sum.windowSeen)
            && (s.book.sum.snapped ==> t.book.sum.snapped) && (s.book.sum.noted ==> t.book.sum.noted)
            && t.book.sum.last == Some(e)
            && (!WroteNote(e) ==> t.book.sum.noteKept == s.book.sum.noteKept)
  {
    AfterHearing(s.book.sum, e);
    hide Extend, WroteNote, TrackerAgrees, FirstLine;
  }

  lemma EndKeeps(s: State, code: int)
    requires s.proc.Running? && Undecided(s, s.proc.run.tracker) && AskedInBounds(s.book.sum, 1)
    requires s.proc.cfg.OneShotMode() ==> code == 1 || code == EXIT_MODEL || code == EXIT_EMERGENCY
    ensures Inv(End(s, code)) && End(s, code).proc.run.stopping
  {
    AfterDecision(s.book, Ended(code));
    AfterInterruption(Append(s.book, Decided(Ended(code))));
    hide Append, TrackerAgrees, FirstLine, HonestFlag;
  }

  lemma EmergencyDoneKeeps(s: State)
    requires s.proc.Running? && Undecided(s, s.proc.run.tracker) && AskedInBounds(s.book.sum, 1)
    ensures Inv(EmergencyDone(s)) && EmergencyDone(s).proc.run.stopping
  {
    AfterDecision(s.book, Ended(EXIT_EMERGENCY));
    AfterInterruption(Append(s.book, Decided(Ended(EXIT_EMERGENCY))));
    hide Append, TrackerAgrees, FirstLine, HonestFlag;
  }

  /** The first line goes out once the window is known to be wide enough. */
  lemma FirstLineKeeps(s: State, line: Line, now: nat)
    requires s.proc.Running? && Open(s, s.proc.run.tracker)
    requires TrackerAgrees(s.proc.run.tracker, s.book.sum, true) && !s.proc.run.tracker.phase.Compacting?
    requires line.Intro? || line.EmergencyLine?
    requires AsksForHandoff(line) ==> s.proc.run.tracker.phase.Handoff?
    ensures Inv(SendFirst(s, line, now))
  {
  }

  lemma WindowKeeps(s: State, answer: Option<nat>, now: nat)
    requires Inv(s) && s.proc.Running?
    requires s.proc.cfg.window.Some? && answer.Some? && answer.value >= s.proc.cfg.window.value ==> s.book.sum.windowSeen
    ensures Inv(AnswerWindow(s, answer, now))
  {
    hide Append, TrackerAgrees, DiskAgrees;
    var run := s.proc.run;
    var t := WithRun(s, run.(intro := None));
    if run.after.None? {
      UndecidedAsks(s);
    }
    if run.after.None? && run.intro.Some? {
      if answer.Some? && answer.value >= s.proc.cfg.window.value {
        FirstLineKeeps(t, run.intro.value, now);
      } else {
        EndKeeps(t, EXIT_MODEL);
      }
    }
  }

  /** Hearing a line that ends no awaited turn keeps the invariant. */
  lemma HearingKeepsInv(s: State, e: Entry)
    requires Inv(s) && s.proc.Running? && e.HeardLine? && !WroteNote(e)
    requires e.awaiting ==> s.proc.run.after.None? && s.proc.run.intro.None? && s.proc.run.ready
    ensures Inv(Emit(s, e))
  {
    HearingKeeps(s, e);
    if s.proc.run.after.None? {
      HearingKeepsTracker(s.proc.run.tracker, s.book.sum, e, 0, s.proc.run.intro.Some?);
    }
  }

  lemma EmergencyResultKeeps(s: State)
    requires Inv(s) && s.proc.Running? && s.proc.cfg.OneShotMode()
    ensures var t := if s.proc.run.compacted then Emit(s.(disk := s.disk.Cleared()), RotationOver(ByHand)) else s;
            Inv(EmergencyDone(t))
  {
    var t := if s.proc.run.compacted then Emit(s.(disk := s.disk.Cleared()), RotationOver(ByHand)) else s;
    if s.proc.run.after.None? {
      EmergencyDoneKeeps(t);
    }
  }

  lemma ChannelKeeps(s: State)
    requires Inv(s) && s.proc.Running?
    ensures Inv(OpenChannel(s)) && OpenChannel(s).proc.run.tracker == s.proc.run.tracker
  {
    AfterOpening(s.book);
    hide Append;
  }

  /** What a line means apart from the rotation keeps the invariant; `s` is the state once
      the line is in the history. */
  lemma OnLineKeeps(s: State, event: Event, now: nat)
    requires Inv(s) && s.proc.Running? && !event.ContextUsage?
    ensures Inv(OnLine(s, event, now))
  {
    match event
    case ModelFallback(fatal) =>
      if fatal && s.proc.run.after.None? { EndKeeps(s, EXIT_MODEL); }
    case Result(isError, _) =>
      if s.proc.cfg.OneShotMode() {
        EmergencyResultKeeps(s);
      } else if !s.proc.run.ready && s.proc.run.after.None? {
        EndKeeps(s, 1);
      }
    case Assistant(_, _, _) => ChannelKeeps(s);
    case Boundary(_) =>
    case CompactionFailed =>
    case _ =>
  }

  /** The tracker agrees with the history once it has noted the line just heard. */
  lemma NotedAgrees(m: Machine, sum: Summary, event: Event, now: nat)
    requires TrackerAgrees(m, sum, false)
    requires event == Boundary(false) && m.phase.Compacting? ==> sum.boundary
    ensures TrackerAgrees(Noted(m, event, now), sum, false)
  {
  }

  /** The tracker's turn: `t` is the state once the line has been taken for everything
      else. */
  lemma TrackerHears(t: State, event: Event, now: nat)
    requires Inv(t) && t.proc.Running? && t.proc.run.after.None? && t.proc.run.intro.None?
    requires !(event.Result? && t.proc.run.tracker.phase.Handoff?)
    requires event == Boundary(false) && t.proc.run.tracker.phase.Compacting? ==> t.book.sum.boundary
    requires event.Result? && t.proc.run.tracker.phase.Compacting? ==>
             t.book.sum.last.Some? && t.book.sum.last.value.HeardLine? && t.book.sum.last.value.event.Result?
    ensures Inv(Follow(t, now, OnEvent(t.proc.run.tracker, event, now)))
  {
    var m := t.proc.run.tracker;
    NotedAgrees(m, t.book.sum, event, now);
    var n := Noted(m, event, now);
    if event.Result? && m.phase.Compacting? {
      CompactionTurnKeeps(t, n, event.isError, now);
    } else {
      AdvanceKeeps(t, n, now);
    }
  }

  /** The turn awaited as the handoff has ended. */
  lemma HandoffResultKeeps(s: State, event: Event, written: bool, now: nat)
    requires Inv(s) && s.proc.Running? && s.proc.run.after.None? && s.proc.run.intro.None? && s.proc.run.ready
    requires event.Result? && s.proc.run.tracker.phase.Handoff?
    ensures Inv(StepHear(s, event, written, now))
  {
    var m := s.proc.run.tracker.(noteWritten := written);
    var e := HeardLine(event, true, written);
    HearingKeeps(s, e);
    var n := Noted(m, event, now);
    HandoffTurnKeeps(Emit(s, e), n, s.book.sum, e, now);
  }

  /** Any other line, before the tracker sees it. */
  lemma OtherLineKeeps(s: State, e: Entry, now: nat)
    requires Inv(s) && s.proc.Running? && e.HeardLine? && !(e.awaiting && e.event.Result?)
    requires e.awaiting ==> s.proc.run.after.None? && s.proc.run.intro.None? && s.proc.run.ready
    ensures Inv(OnLine(Emit(s, e), e.event, now))
  {
    HearingKeepsInv(s, e);
    var u := Emit(s, e);
    if e.event.ContextUsage? {
      if e.event.ours { WindowKeeps(u, e.event.maxTokens, now); }
    } else {
      OnLineKeeps(u, e.event, now);
    }
  }

  /** Any other line, and then the tracker's answer to it. */
  lemma OtherLineFollowed(s: State, e: Entry, now: nat)
    requires Inv(s) && s.proc.Running? && e.HeardLine? && !(e.awaiting && e.event.Result?)
    requires e.awaiting == (s.proc.run.after.None? && s.proc.run.intro.None? && s.proc.run.ready
                            && s.proc.run.tracker.phase.Handoff?)
    ensures var t := OnLine(Emit(s, e), e.event, now);
            && Inv(t)
            && (t.proc.run.after.None? && t.proc.run.intro.None? ==>
                !(e.event.Result? && t.proc.run.tracker.phase.Handoff?)
                && Inv(Follow(t, now, OnEvent(t.proc.run.tracker, e.event, now))))
  {
    OtherLineKeeps(s, e, now);
    OnLineLeavesTracker(s, e, now);
    var t := OnLine(Emit(s, e), e.event, now);
    if t.proc.run.after.None? && t.proc.run.intro.None? {
      TrackerHears(t, e.event, now);
    }
  }

  lemma HearKeeps(s: State, event: Event, written: bool, now: nat)
    requires Inv(s) && s.proc.Running?
    ensures Inv(StepHear(s, event, written, now))
  {
    var run := s.proc.run;
    var awaiting := !run.stopping && run.intro.None? && run.ready && run.tracker.phase.Handoff?;
    if awaiting && event.Result? {
      HandoffResultKeeps(s, event, written, now);
    } else {
      OtherLineFollowed(s, HeardLine(event, awaiting, written), now);
    }
  }

  lemma OnLineLeavesTracker(s: State, e: Entry, now: nat)
    requires Inv(s) && s.proc.Running? && e.HeardLine?
    ensures var t := OnLine(Emit(s, e), e.event, now);
            t.proc.run.after.None? ==>
              && t.proc.run.tracker == s.proc.run.tracker && (!e.event.ContextUsage? ==> t.proc.run.intro == s.proc.run.intro)
              && (e.event == Boundary(false) && s.book.sum.compacting ==> t.book.sum.boundary)
              && (e.event.Result? && !s.proc.cfg.OneShotMode() ==> t.proc.run.ready && t.book.sum.last == Some(e))
  {
    hide Inv, Extend, Allowed;
    AfterHearing(s.book.sum, e);
    LineLeavesRun(Emit(s, e), e.event, now);
  }

  lemma LineLeavesRun(s: State, event: Event, now: nat)
    requires s.proc.Running?
    ensures var t := OnLine(s, event, now);
            t.proc.run.after.None? ==>
              && t.proc.run.tracker == s.proc.run.tracker && (!event.ContextUsage? ==> t.proc.run.intro == s.proc.run.intro)
              && (event == Boundary(false) ==> t.book == s.book)
              && (event.Result? && !s.proc.cfg.OneShotMode() ==> t.proc.run.ready && t.book == s.book)
  {
    hide Append;
  }

  // ------------------------------------------------------------------------------------
  // Ticks, stops and exits

  lemma MarkerAgrees(m: Machine, sum: Summary, now: nat)
    requires TrackerAgrees(m, sum, false) && m.limits.enabled
    ensures TrackerAgrees(SetPending(m, now), sum, false)
  {
  }

  lemma MarkerKeeps(s: State, now: nat)
    requires Inv(s) && s.proc.Running? && s.proc.run.after.None? && s.proc.run.intro.None? && s.proc.cfg.Rotates()
    ensures Inv(LookForMarker(s, now))
    ensures var r := LookForMarker(s, now).proc.run;
            r.intro.None? && (r.after.Some? ==> r.tracker.pending && r.tracker.phase.Idle?)
  {
    var m := s.proc.run.tracker;
    if s.disk.marker && !m.pending {
      MarkerAgrees(m, s.book.sum, now);
      AdvanceKeeps(s, SetPending(m, now), now);
      FollowedWhenDecided(s, SetPending(m, now), now);
    }
  }

  predicate Spends(action: Action) {
    action.Retry? || action.Postpone? || action.GiveUp?
  }

  lemma AdvanceSpends(m: Machine, now: nat)
    requires m.pending == !m.phase.Idle?
    ensures var r := Advance(m, now);
            || r.actions == []
            || r.actions == [Snapshot(BeforeHandoff), RequestHandoff]
            || (|r.actions| == 1 && (Spends(r.actions[0]) ==> r.machine.pending && r.machine.phase.Idle?))
  {
  }

  lemma ActOneRun(s: State, now: nat, action: Action)
    requires s.proc.Running?
    ensures var r := ActOne(s, now, action).proc.run;
            && r.intro == s.proc.run.intro && r.tracker == s.proc.run.tracker
            && (r.after == s.proc.run.after || Spends(action))
  {
    hide Append;
  }

  /** An answer of `Advance` that decides the run leaves the tracker with nothing to say. */
  lemma FollowedWhenDecided(s: State, m: Machine, now: nat)
    requires Open(s, m) && TrackerAgrees(m, s.book.sum, false)
    ensures var r := Follow(s, now, Advance(m, now)).proc.run;
            r.intro.None? && (r.after.Some? ==> r.tracker.pending && r.tracker.phase.Idle?)
  {
    AdvanceSpends(m, now);
    hide ActOne, DiskAgrees, TrackerAgrees, Advance;
    var r := Advance(m, now);
    var t := WithRun(s, s.proc.run.(tracker := r.machine));
    if |r.actions| == 1 {
      ActOnly(t, now, r.actions[0]);
      ActOneRun(t, now, r.actions[0]);
    } else if |r.actions| == 2 {
      ActBoth(t, now, Snapshot(BeforeHandoff), RequestHandoff);
      ActOneRun(t, now, Snapshot(BeforeHandoff));
      ActOneRun(ActOne(t, now, Snapshot(BeforeHandoff)), now, RequestHandoff);
    }
  }

  lemma TickKeeps(s: State, now: nat, fifth: bool)
    requires Inv(s) && s.proc.Running?
    ensures Inv(StepTick(s, now, fifth))
  {
    var cfg, run := s.proc.cfg, s.proc.run;
    if run.stopping {
    } else if run.intro.Some? {
      EndKeeps(s, 1);
    } else if cfg.OneShotMode() {
      EndKeeps(s, EXIT_EMERGENCY);
    } else {
      var t := if cfg.Rotates() && fifth then LookForMarker(s, now) else s;
      if cfg.Rotates() && fifth {
        MarkerKeeps(s, now);
      }
      TrackerTicks(t, now);
    }
  }

  lemma TrackerTicks(t: State, now: nat)
    requires Inv(t) && t.proc.Running? && t.proc.run.intro.None?
    requires t.proc.run.after.Some? ==> t.proc.run.tracker.pending && t.proc.run.tracker.phase.Idle?
    ensures Inv(Follow(t, now, OnTick(t.proc.run.tracker, now)))
  {
    var m := t.proc.run.tracker;
    if t.proc.run.after.Some? {
      assert OnTick(m, now) == Reply(m, []);
    } else if m.ThresholdTripped(now) {
      var n := SetPending(m, now);
      MarkerAgrees(m, t.book.sum, now);
      var r := Advance(n, now);
      var u := t.(disk := t.disk.(marker := true));
      ActSplit(WithRun(t, t.proc.run.(tracker := r.machine)), now, MarkPending, r.actions);
      AdvanceKeeps(u, n, now);
    } else {
      AdvanceKeeps(t, m, now);
    }
  }

  /** A state whose process may go down. */
  predicate MayLeave(s: State) {
    s.book.safe && DiskAgrees(s.disk.next, s.book.sum) && AskedInBounds(s.book.sum, 0) && !s.book.sum.noteKept
  }

  lemma InterruptKeeps(s: State)
    requires s.book.safe && DiskAgrees(s.disk.next, s.book.sum) && AskedInBounds(s.book.sum, 1)
    ensures MayLeave(Emit(s, Interrupted))
  {
    AfterInterruption(s.book);
    hide Append;
  }

  lemma LeaveKeeps(s: State, code: int, oneShot: bool)
    requires MayLeave(s)
    requires oneShot && !s.stopRequested ==> code == EXIT_EMERGENCY || code == EXIT_MODEL
    ensures Inv(Leave(s, code, oneShot))
  {
    AfterExit(s.book, code, oneShot, s.stopRequested);
    hide Append;
  }

  lemma StopKeeps(s: State)
    requires Inv(s) && s.proc.Running? && s.stopRequested
    ensures Inv(StepSeeStop(s))
  {
    var after := s.proc.run.after;
    if after.None? || after.value.Again? {
      AfterDecision(s.book, Exit(0));
      AfterInterruption(Append(s.book, Decided(Exit(0))));
    }
    hide Append, TrackerAgrees, FirstLine;
  }

  lemma UndecidedAsks(s: State)
    requires Inv(s) && s.proc.Running? && s.proc.run.after.None?
    ensures AskedInBounds(s.book.sum, 1)
  {
  }

  lemma ExitKeeps(s: State, code: int, noConversation: bool)
    requires Inv(s) && s.proc.Running?
    ensures Inv(StepExit(s, code, noConversation))
  {
    hide Append, Leave, TrackerAgrees, FirstLine;
    var cfg, run := s.proc.cfg, s.proc.run;
    if run.after.None? {
      UndecidedAsks(s);
      var disk := if run.start.resume && noConversation && !cfg.OneShotMode() then s.disk.(id := None) else s.disk;
      InterruptKeeps(s.(disk := disk));
      LeaveKeeps(Emit(s.(disk := disk), Interrupted),
                 if cfg.OneShotMode() && !s.stopRequested then EXIT_EMERGENCY else code, cfg.OneShotMode());
    } else {
      match run.after.value
      case Again(_) =>
      case Exit(decided) => LeaveKeeps(s, if cfg.OneShotMode() && !s.stopRequested then EXIT_EMERGENCY else decided, cfg.OneShotMode());
      case Ended(decided) => LeaveKeeps(s, if cfg.OneShotMode() && decided == 1 then EXIT_EMERGENCY else decided, cfg.OneShotMode());
    }
  }

  // ------------------------------------------------------------------------------------
  // Starts

  /** What a planned start carries is what the history says. */
  predicate StartAgrees(p: Planned, rotates: bool) {
    var sum, start, disk := p.state.book.sum, p.start, p.state.disk;
    if start.kind.RetryStart? then
      && 0 < start.attempts == sum.spent < HANDOFF_ATTEMPTS && HonestFlag(sum, start.handoff)
      && (start.snapshot || sum.snapped)
    else if disk.marker && rotates then
      && start.attempts == sum.spent < HANDOFF_ATTEMPTS && HonestFlag(sum, start.handoff)
      && (start.attempts > 0 ==> sum.snapped)
    else !sum.noteKept && (rotates ==> sum.spent == 0)
  }

  /** The record of a plan: the disk and the history agree, and nothing was asked yet. */
  predicate PlanAgrees(p: Planned, cfg: Config) {
    && p.state.book.safe && DiskAgrees(p.state.disk.next, p.state.book.sum) && AskedInBounds(p.state.book.sum, 0)
    && StartAgrees(p, cfg.Rotates()) && (cfg.OneShotMode() ==> p.state.book.sum.spawns == 0 && !p.start.kind.RetryStart?)
  }

  lemma RotatedOutKeeps(s: State, newId: string, handoff: bool, cfg: Config)
    requires Inv(s) && s.proc.Between? && s.proc.cfg == cfg && !cfg.OneShotMode()
    requires s.disk.Resumable() ==> s.book.sum.spent == HANDOFF_ATTEMPTS
    requires HonestFlag(s.book.sum, handoff)
    ensures PlanAgrees(RotatedOut(s, newId, handoff), cfg)
  {
  }

  lemma ResumedKeeps(s: State, newId: string, cfg: Config)
    requires Inv(s) && s.proc.Between? && s.proc.cfg == cfg && !cfg.OneShotMode()
    requires s.disk.next.Normal? || s.disk.next.Postponed?
    ensures PlanAgrees(PlanStart(s, newId), cfg)
  {
    if !s.disk.Resumable() {
      var t := Emit(s.(disk := s.disk.Cleared()), RotationOver(ByNewId));
      assert t.book.safe && t.book.sum.spent == 0 && !t.book.sum.noteKept;
    } else if !s.disk.marker {
      var t := Emit(s.(disk := s.disk.(next := Normal)), RotationOver(NothingPending));
      assert t.book.safe && t.book.sum.spent == 0 && !t.book.sum.noteKept;
    } else {
      assert PlanStart(s, newId).state == s;
    }
  }

  lemma PlanKeeps(s: State, newId: string, cfg: Config)
    requires Inv(s) && s.proc.Between? && s.proc.cfg == cfg && !cfg.OneShotMode()
    ensures PlanAgrees(PlanStart(s, newId), cfg)
  {
    match s.disk.next
    case Fresh(handoff) => RotatedOutKeeps(s, newId, handoff, cfg);
    case NextRetry(_, _, handoff) => if !s.disk.Resumable() { RotatedOutKeeps(s, newId, handoff, cfg); }
    case _ => ResumedKeeps(s, newId, cfg);
  }

  /** The history of a start, up to its first line. */
  lemma LaunchBook(p: Planned, cfg: Config, notBefore: Option<nat>, now: nat)
    ensures var t := Launch(p.state, cfg, p.start, notBefore, now);
            var was, sum := p.state.book.sum, t.book.sum;
            && t.book.safe == (p.state.book.safe && (cfg.OneShotMode() ==> was.spawns == 0))
            && sum.snapped == (was.snapped || (p.start.kind.RetryStart? && p.start.snapshot))
            && sum.spent == was.spent && sum.asked == was.asked && sum.interruptions == was.interruptions
            && sum.noted == was.noted && sum.noteKept == was.noteKept
            && sum.decided.None? && sum.window == cfg.window && sum.windowSeen == cfg.window.None?
            && t.disk == p.state.disk && t.stopRequested == p.state.stopRequested
            && t.proc.run.tracker == StartTracker(cfg, p.start, p.state.disk.marker, notBefore, now)
            && t.proc.run.intro.None? && t.proc.run.after.None? && t.proc.run.stdin && !t.proc.run.stopping
  {
    AfterSpawn(p.state.book, cfg.OneShotMode(), cfg.window);
    AfterSnapshot(Append(p.state.book, Spawned(cfg.OneShotMode(), cfg.window)), BeforeHandoff);
    hide Append, StartTracker;
  }

  /** The tracker of a start agrees with the history its plan agrees with. */
  lemma StartTrackerAgrees(p: Planned, cfg: Config, sum: Summary, notBefore: Option<nat>, now: nat)
    requires StartAgrees(p, cfg.Rotates()) && AskedInBounds(sum, 0)
    requires var was := p.state.book.sum;
             && sum.snapped == (was.snapped || (p.start.kind.RetryStart? && p.start.snapshot))
             && sum.spent == was.spent && sum.noted == was.noted && sum.noteKept == was.noteKept
    ensures var m := StartTracker(cfg, p.start, p.state.disk.marker, notBefore, now);
            && TrackerAgrees(m, sum, true) && !m.phase.Compacting? && m.limits.enabled == cfg.Rotates()
            && (AsksForHandoff(StartLine(cfg, p.start)) ==> m.phase.Handoff?)
            && (cfg.OneShotMode() && !p.start.kind.RetryStart? ==> m.phase.Idle?)
  {
  }

  lemma LaunchKeeps(p: Planned, cfg: Config, notBefore: Option<nat>, now: nat)
    requires PlanAgrees(p, cfg)
    ensures var t := Launch(p.state, cfg, p.start, notBefore, now);
            var m := t.proc.run.tracker;
            && Undecided(t, m) && t.proc.run.intro.None? && (cfg.window.None? ==> t.book.sum.windowSeen)
            && TrackerAgrees(m, t.book.sum, true) && !m.phase.Compacting?
            && (AsksForHandoff(StartLine(cfg, p.start)) ==> m.phase.Handoff?)
  {
    hide Launch, StartTracker, StartAgrees, TrackerAgrees, AsksForHandoff, StartLine;
    LaunchBook(p, cfg, notBefore, now);
    StartTrackerAgrees(p, cfg, Launch(p.state, cfg, p.start, notBefore, now).book.sum, notBefore, now);
  }

  lemma BeginKeeps(p: Planned, cfg: Config, notBefore: Option<nat>, now: nat)
    requires PlanAgrees(p, cfg)
    ensures Inv(Begin(p.state, cfg, p.start, notBefore, now))
  {
    LaunchKeeps(p, cfg, notBefore, now);
    if cfg.window.None? {
      FirstLineKeeps(Launch(p.state, cfg, p.start, notBefore, now), StartLine(cfg, p.start), now);
    }
  }

  lemma StepPlanKeeps(s: State, newId: string, now: nat, spawns: bool)
    requires Inv(s) && s.proc.Between?
    ensures Inv(StepPlan(s, newId, now, spawns))
  {
    hide Append, Leave, Begin, TrackerAgrees, FirstLine;
    var cfg, notBefore := s.proc.cfg, s.proc.notBefore;
    var oneShot := cfg.OneShotMode();
    if s.stopRequested || (oneShot && !s.disk.Resumable()) {
      InterruptKeeps(s);
      LeaveKeeps(Emit(s, Interrupted), if s.stopRequested then 0 else EXIT_EMERGENCY, oneShot);
    } else {
      var p := if oneShot then Planned(s, Start(s.disk.id.value, true, Resumed, 0, false, false)) else PlanStart(s, newId);
      if !oneShot { PlanKeeps(s, newId, cfg); }
      assert PlanAgrees(p, cfg);
      if spawns {
        BeginKeeps(p, cfg, notBefore, now);
      } else {
        InterruptKeeps(p.state);
        LeaveKeeps(Emit(p.state, Interrupted), if oneShot then EXIT_EMERGENCY else 1, oneShot);
      }
    }
  }

  // ------------------------------------------------------------------------------------
  // Every run

  /** What the surroundings do. */
  lemma OutsideKeeps(s: State, input: Input)
    requires Inv(s) && (input.WriteMarker? || input.RemoveMarker? || input.TranscriptAppears? || input.TranscriptLost? || input.RequestStop?)
    ensures Inv(Transition(s, input))
  {
    hide TrackerAgrees, FirstLine, DiskAgrees;
  }

  lemma BootKeeps(s: State, cfg: Config)
    requires Inv(s)
    ensures Inv(Transition(s, Boot(cfg)))
  {
    AfterBoot(s.book);
    hide Append, TrackerAgrees, FirstLine;
  }

  lemma DieKeeps(s: State)
    requires Inv(s)
    ensures Inv(Transition(s, Die))
  {
    hide Append, FirstLine;
    InterruptKeeps(s);
  }

  lemma StepKeeps(s: State, input: Input)
    requires Inv(s)
    ensures Inv(Transition(s, input))
  {
    hide Inv, StepPlan, StepHear, StepTick, StepSeeStop, StepExit, Emit;
    match input
    case Boot(cfg) => BootKeeps(s, cfg);
    case Plan(newId, now, spawns) => if s.proc.Between? { StepPlanKeeps(s, newId, now, spawns); }
    case Hear(event, written, now) => if s.proc.Running? { HearKeeps(s, event, written, now); }
    case TickAt(now, fifth) => if s.proc.Running? { TickKeeps(s, now, fifth); }
    case SeeStop => if s.proc.Running? && s.stopRequested { StopKeeps(s); }
    case ClaudeExits(code, noConversation) => if s.proc.Running? { ExitKeeps(s, code, noConversation); }
    case Die => DieKeeps(s);
    case _ => OutsideKeeps(s, input);
  }
}
