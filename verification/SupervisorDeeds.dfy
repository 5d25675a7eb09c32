/**
  What the supervisor does in a run of claude, in terms of what was heard and of what the rotation
  tracker answers: which calls the tracker gets, which lines go to claude, when the channel opens,
  what becomes of the marker, and that the pause after a failed attempt lasts into the next run.
 */
module SupervisorDeeds {
  import opened Prelude
  import opened Rotation
  import opened RotationTiming
  import RotationHeard
  import opened History
  import opened Supervisor
  import opened SupervisorHeard

  // ------------------------------------------------------------------------------------
  // The tracker's answers are carried out

  /** The entries that `t` adds to the history of `s`. */
  function News(s: State, t: State): seq<Entry> {
    if |s.book.log| <= |t.book.log| then t.book.log[|s.book.log|..] else []
  }

  predicate GoesOn(s: State, t: State) {
    s.book.log <= t.book.log
  }

  /** An answer that makes the supervisor start claude again. */
  predicate Restarts(a: Action) {
    a.Retry? || a.Postpone? || a.GiveUp?
  }

  /** What is done is what was answered. */
  ghost predicate CarriedOut(news: seq<Entry>, answers: seq<Action>) {
    && (Sent(HandoffRequest) in news <==> RequestHandoff in answers)
    && (Sent(CompactCommand) in news <==> Compact in answers)
    && (Sent(CompactedNote) in news <==> Compacted in answers)
    && (RotationOver(ByCompaction) in news <==> Compacted in answers)
    && (forall moment :: Snapped(moment) in news <==> Snapshot(moment) in answers)
    && (forall next :: Recorded(next) in news <==> exists a :: a in answers && Records(a, next))
  }

  /** What is recorded for the next start when an answer makes it due. */
  predicate Records(a: Action, next: Next) {
    match a
    case Retry(step, attempts, handoff) => next == NextRetry(step.Wait?, attempts, handoff)
    case Postpone(_, attempts, handoff) => next == Postponed(attempts, handoff)
    case GiveUp(_, _, handoff) => next == Fresh(handoff)
    case _ => false
  }

  lemma InSum<T>(a: seq<T>, b: seq<T>)
    ensures forall x :: x in a + b <==> x in a || x in b
  {
  }

  lemma CarriedOutBoth(a: seq<Entry>, b: seq<Entry>, x: seq<Action>, y: seq<Action>)
    requires CarriedOut(a, x) && CarriedOut(b, y)
    ensures CarriedOut(a + b, x + y)
  {
    InSum(a, b);
    InSum(x, y);
  }

  lemma NewsSum(s: State, t: State, u: State)
    requires GoesOn(s, t) && GoesOn(t, u)
    ensures GoesOn(s, u) && News(s, u) == News(s, t) + News(t, u)
  {
  }

  /** `news` is what the step from `s` to `t` adds to the history. */
  lemma NewsIs(s: State, t: State, news: seq<Entry>)
    requires t.book.log == s.book.log + news
    ensures GoesOn(s, t) && News(s, t) == news
  {
  }

  predicate Channel(e: Entry) {
    e.ChannelOpened?
  }

  /** The lines that begin a run. */
  predicate FirstLine(e: Entry) {
    e.Sent? && (e.line.Intro? || e.line.EmergencyLine?)
  }

  predicate NoneOf(news: seq<Entry>, p: Entry -> bool) {
    forall i :: 0 <= i < |news| ==> !p(news[i])
  }

  /** The entries that carry out one answer. */
  function Entries(a: Action, now: nat, cfg: Config): seq<Entry> {
    match a
    case MarkPending => []
    case Snapshot(moment) => [Snapped(moment)]
    case RequestHandoff => [Sent(HandoffRequest)]
    case AwaitHandoff => []
    case Compact => [Sent(CompactCommand)]
    case AwaitCompaction => []
    case Compacted => [RotationOver(ByCompaction), Sent(CompactedNote)]
    case Retry(step, attempts, handoff) => [Recorded(NextRetry(step.Wait?, attempts, handoff)), Decided(Again(None))]
    case Postpone(_, attempts, handoff) => [Recorded(Postponed(attempts, handoff)), Decided(Again(Some(now + cfg.limits.retryPause)))]
    case GiveUp(_, _, handoff) => [Recorded(Fresh(handoff)), Decided(Again(None))]
  }

  lemma ActOneAdds(s: State, now: nat, a: Action)
    requires s.proc.Running? && s.proc.run.stdin
    ensures ActOne(s, now, a).book.log == s.book.log + Entries(a, now, s.proc.cfg)
  {
    hide Extend, Allowed;
  }

  lemma EntriesCarryOut(a: Action, now: nat, cfg: Config)
    ensures CarriedOut(Entries(a, now, cfg), [a])
    ensures NoneOf(Entries(a, now, cfg), Channel) && NoneOf(Entries(a, now, cfg), FirstLine)
  {
    assert a in [a];
  }

  /** At most the last answer restarts claude. */
  predicate RestartsLast(answers: seq<Action>) {
    forall i :: 0 <= i < |answers| - 1 ==> !Restarts(answers[i])
  }

  /** How an answer decides the run. */
  function After(a: Action, now: nat, cfg: Config): Option<Outcome> {
    match a
    case Retry(_, _, _) => Some(Again(None))
    case GiveUp(_, _, _) => Some(Again(None))
    case Postpone(_, _, _) => Some(Again(Some(now + cfg.limits.retryPause)))
    case _ => None
  }

  function AfterAll(answers: seq<Action>, now: nat, cfg: Config): Option<Outcome> {
    if answers == [] then None else After(Last(answers), now, cfg)
  }

  lemma ActOneDecides(s: State, now: nat, a: Action)
    requires s.proc.Running?
    ensures var t := ActOne(s, now, a);
            && (!Restarts(a) ==> t.proc == s.proc)
            && (Restarts(a) ==> t.proc.run.after == After(a, now, s.proc.cfg) && Records(a, t.disk.next))
            && (t.disk.marker <==> if a.Compacted? then false else s.disk.marker || a.MarkPending?)
            && t.proc.cfg == s.proc.cfg && t.proc.run.tracker == s.proc.run.tracker && t.stopRequested == s.stopRequested
  {
    hide Append;
  }

  /** What the answers make of the run and the marker. */
  predicate Ends(s: State, t: State, answers: seq<Action>, now: nat)
    requires s.proc.Running?
  {
    && t.proc.Running? && t.proc.cfg == s.proc.cfg && t.proc.run.tracker == s.proc.run.tracker
    && t.stopRequested == s.stopRequested
    && (AfterAll(answers, now, s.proc.cfg).None? ==> t.proc == s.proc)
    && (AfterAll(answers, now, s.proc.cfg).Some? ==> t.proc.run.after == AfterAll(answers, now, s.proc.cfg) && Records(Last(answers), t.disk.next))
    && ((Compacted in answers ==> |answers| == 1) ==>
          (t.disk.marker <==> if Compacted in answers then false else s.disk.marker || MarkPending in answers))
  }

  lemma {:induction false} ActDoes(s: State, now: nat, answers: seq<Action>)
    requires s.proc.Running? && s.proc.run.stdin && RestartsLast(answers)
    ensures var t := Act(s, now, answers);
            && GoesOn(s, t) && CarriedOut(News(s, t), answers) && NoneOf(News(s, t), Channel) && NoneOf(News(s, t), FirstLine)
            && Ends(s, t, answers, now)
    decreases answers
  {
    hide ActOne, CarriedOut, Entries;
    if answers == [] {
      NothingDone(s);
    } else {
      var first, rest := answers[0], answers[1..];
      var t, u := ActOne(s, now, first), Act(s, now, answers);
      var news := Entries(first, now, s.proc.cfg);
      ActOneAdds(s, now, first);
      EntriesCarryOut(first, now, s.proc.cfg);
      NewsIs(s, t, news);
      ActOneDecides(s, now, first);
      assert answers == [first] + rest;
      if rest != [] {
        assert !Restarts(answers[0]);
        assert forall i :: 0 <= i < |rest| ==> rest[i] == answers[i + 1];
        ActDoes(t, now, rest);
        NewsSum(s, t, u);
        CarriedOutBoth(news, News(t, u), [first], rest);
        assert Last(rest) == Last(answers);
      } else {
        assert answers == [first];
      }
    }
  }

  lemma NothingDone(s: State)
    ensures GoesOn(s, s) && News(s, s) == [] && CarriedOut([], [])
  {
  }

  // ------------------------------------------------------------------------------------
  // The calls of the tracker

  /** Everything the tracker answers to some calls. */
  function Replies(m: Machine, calls: seq<TimedCall>): seq<Action>
    decreases calls
  {
    if calls == [] then [] else Replied(m, calls[0]) + Replies(Apply(m, calls[0]), calls[1..])
  }

  /** From `s` to `t` the tracker got these calls, and its answers were carried out. */
  ghost predicate Obeys(s: State, t: State, calls: seq<TimedCall>, now: nat)
    requires s.proc.Running?
  {
    var m := s.proc.run.tracker;
    ObeysAs(s, t, AfterCalls(m, calls), Replies(m, calls), now)
  }

  ghost predicate ObeysAs(s: State, t: State, m: Machine, answers: seq<Action>, now: nat)
    requires s.proc.Running?
  {
    && GoesOn(s, t) && CarriedOut(News(s, t), answers) && NoneOf(News(s, t), Channel) && NoneOf(News(s, t), FirstLine)
    && t.proc.Running? && t.proc.run.tracker == m
    && Ends(WithRun(s, s.proc.run.(tracker := m)), t, answers, now)
  }

  predicate Restarting(answers: seq<Action>) {
    answers != [] && Restarts(Last(answers))
  }

  lemma AdvanceEnds(m: Machine, now: nat)
    ensures RestartsLast(Advance(m, now).actions) && Compacted !in Advance(m, now).actions
    ensures Restarting(Advance(m, now).actions) ==> Advance(m, now).machine.phase.Idle? && Advance(m, now).machine.pending == m.pending
    ensures |Advance(m, now).actions| <= 2
  {
  }

  lemma TurnEndEnds(m: Machine, isError: bool, now: nat)
    requires m.phase.Handoff? || m.phase.Compacting?
    ensures RestartsLast(TurnEnd(m, isError, now).actions)
    ensures Compacted in TurnEnd(m, isError, now).actions ==> |TurnEnd(m, isError, now).actions| == 1
  {
  }

  /** A restart comes last in an answer, and the end of a compaction comes alone. */
  lemma RepliesEnd(m: Machine, c: TimedCall)
    ensures RestartsLast(Replied(m, c)) && (Compacted in Replied(m, c) ==> |Replied(m, c)| == 1)
    ensures c.call.MarkerFound? || c.call.Ticked? ==> Compacted !in Replied(m, c)
    ensures c.call.MarkerFound? && m.limits.enabled && Restarting(Replied(m, c)) ==> Apply(m, c).pending && Apply(m, c).phase.Idle?
  {
    hide Advance, TurnEnd, Noted, Restarts;
    match c.call
    case Heard(event) =>
      var n := Noted(m, event, c.now);
      if event.Result? && (m.phase.Handoff? || m.phase.Compacting?) {
        assert n.phase == m.phase by { ResultKeepsPhase(m, event, c.now); }
        TurnEndEnds(n, event.isError, c.now);
      } else {
        AdvanceEnds(n, c.now);
      }
    case Ticked =>
      AdvanceEnds(SetPending(m, c.now), c.now);
      AdvanceEnds(m, c.now);
      assert !Restarts(MarkPending) by { MarksOnly(); }
    case MarkerFound => AdvanceEnds(SetPending(m, c.now), c.now);
    case _ =>
  }

  lemma MarksOnly()
    ensures !Restarts(MarkPending)
  {
  }

  lemma ResultKeepsPhase(m: Machine, event: Event, now: nat)
    requires event.Result?
    ensures Noted(m, event, now).phase == m.phase
  {
  }

  /** A call whose answer is carried out at once. */
  lemma FollowObeys(s: State, c: TimedCall)
    requires s.proc.Running? && (s.proc.run.stdin || Replied(s.proc.run.tracker, c) == [])
    ensures var m := s.proc.run.tracker;
            ObeysAs(s, Follow(s, c.now, Reply(Apply(m, c), Replied(m, c))), Apply(m, c), Replied(m, c), c.now)
    ensures var m := s.proc.run.tracker;
            Replied(m, c) == [] ==> Follow(s, c.now, Reply(Apply(m, c), Replied(m, c))).disk == s.disk
  {
    var m := s.proc.run.tracker;
    var t := WithRun(s, s.proc.run.(tracker := Apply(m, c)));
    RepliesEnd(m, c);
    hide Act, Apply, Replied, CarriedOut;
    assert Act(t, c.now, []) == t by { ActNothing(t, c.now); }
    if s.proc.run.stdin {
      ActDoes(t, c.now, Replied(m, c));
    } else {
      NothingDone(s);
    }
  }

  lemma ActNothing(s: State, now: nat)
    requires s.proc.Running?
    ensures Act(s, now, []) == s
  {
  }

  lemma OneCall(m: Machine, c: TimedCall)
    ensures AfterCalls(m, [c]) == Apply(m, c) && Replies(m, [c]) == Replied(m, c)
  {
    assert [c][1..] == [];
  }

  lemma TwoCalls(m: Machine, c: TimedCall, d: TimedCall)
    ensures AfterCalls(m, [c, d]) == Apply(Apply(m, c), d) && Replies(m, [c, d]) == Replied(m, c) + Replied(Apply(m, c), d)
  {
    assert [c, d][1..] == [d];
    OneCall(Apply(m, c), d);
  }

  /** One call after another, if the first answer does not restart claude or the second is empty. */
  lemma ObeysBoth(s: State, t: State, u: State, m: Machine, n: Machine, a: seq<Action>, b: seq<Action>, now: nat)
    requires s.proc.Running? && ObeysAs(s, t, m, a, now) && ObeysAs(t, u, n, b, now)
    requires !Restarting(a) || b == []
    requires Compacted !in a && Compacted !in b && (b == [] ==> u.disk == t.disk)
    ensures ObeysAs(s, u, n, a + b, now)
  {
    NewsSum(s, t, u);
    CarriedOutBoth(News(s, t), News(t, u), a, b);
    InSum(a, b);
    assert b != [] ==> Last(a + b) == Last(b);
    assert b == [] ==> a + b == a;
    hide CarriedOut;
  }

  /**
    The calls that an input is to the tracker in this state, after some inputs of a run: a line,
    once the first line is out, with a look at the note when it ends a turn that is awaited; a tick,
    and every fifth with a look at the marker.
   */
  function CallsOf(cfg: Config, inputs: seq<Input>, x: Input, m: Machine, marker: bool): seq<TimedCall> {
    match x
    case Hear(event, written, now) =>
      if Waits(cfg, inputs + [x]) then []
      else LineCalls(m, event, written, now)
    case TickAt(now, fifth) =>
      if Waits(cfg, inputs) || cfg.OneShotMode() then []
      else if cfg.Rotates() && fifth && marker && !m.pending then [At(now, MarkerFound), At(now, Ticked)]
      else if cfg.Rotates() && fifth && !marker then [At(now, MarkerGone), At(now, Ticked)]
      else [At(now, Ticked)]
    case _ => []
  }

  lemma MarkerObeys(s: State, now: nat)
    requires Undecided(s) && s.proc.run.stdin
    ensures var m, t := s.proc.run.tracker, LookForMarker(s, now);
            && (s.disk.marker && !m.pending ==> ObeysAs(s, t, Apply(m, At(now, MarkerFound)), Replied(m, At(now, MarkerFound)), now))
            && (!s.disk.marker ==> ObeysAs(s, t, Apply(m, At(now, MarkerGone)), [], now))
            && (s.disk.marker && m.pending ==> t == s)
  {
    var m := s.proc.run.tracker;
    if s.disk.marker && !m.pending {
      FollowObeys(s, At(now, MarkerFound));
      hide Act;
    } else if !s.disk.marker {
      NothingDone(s);
      hide Extend, Allowed;
      if Cancels(m) {
        var t := LookForMarker(s, now);
        NewsIs(s, t, [RotationOver(ByHand)]);
      }
    }
  }

  lemma NothingObeys(s: State, now: nat)
    requires s.proc.Running?
    ensures Obeys(s, s, [], now)
  {
    NothingDone(s);
  }

  /** A tick that asks the tracker. */
  lemma TickAsks(s: State, now: nat, fifth: bool, calls: seq<TimedCall>)
    requires Undecided(s) && s.proc.run.stdin && !s.proc.run.stopping && s.proc.run.intro.None? && !s.proc.cfg.OneShotMode()
    requires var m, looks := s.proc.run.tracker, s.proc.cfg.Rotates() && fifth;
             calls == (if looks && s.disk.marker && !m.pending then [At(now, MarkerFound)]
                       else if looks && !s.disk.marker then [At(now, MarkerGone)] else []) + [At(now, Ticked)]
    requires s.proc.cfg.Rotates() ==> s.proc.run.tracker.limits.enabled
    ensures Obeys(s, StepTick(s, now, fifth), calls, now)
  {
    var m, looks := s.proc.run.tracker, s.proc.cfg.Rotates() && fifth;
    var tick := At(now, Ticked);
    var t := if looks then LookForMarker(s, now) else s;
    var u := StepTick(s, now, fifth);
    var n := t.proc.run.tracker;
    MarkerObeys(s, now);
    assert u == Follow(t, now, Reply(Apply(n, tick), Replied(n, tick)));
    hide StepTick, LookForMarker, Follow, OnTick, OnMarker, ObeysAs;
    RepliesEnd(n, tick);
    if |calls| == 1 {
      assert calls == [tick] && t == s;
      OneCall(m, tick);
      FollowObeys(s, tick);
    } else {
      var first := calls[0];
      assert calls == [first, tick];
      TwoCalls(m, first, tick);
      RepliesEnd(m, first);
      assert ObeysAs(s, t, Apply(m, first), Replied(m, first), now);
      FollowsOn(s, t, first, now);
      FollowObeys(t, tick);
      ObeysBoth(s, t, u, n, Apply(n, tick), Replied(m, first), Replied(n, tick), now);
    }
  }

  /** Once the look at the marker has restarted claude, the tick asks for nothing. */
  lemma FollowsOn(s: State, t: State, first: TimedCall, now: nat)
    requires Undecided(s) && s.proc.run.stdin
    requires ObeysAs(s, t, Apply(s.proc.run.tracker, first), Replied(s.proc.run.tracker, first), now)
    requires first.call.MarkerGone? || (first.call.MarkerFound? && s.proc.run.tracker.limits.enabled && !s.proc.run.tracker.pending)
    ensures var m := s.proc.run.tracker;
            if Restarting(Replied(m, first)) then Replied(t.proc.run.tracker, At(now, Ticked)) == [] else t.proc.run.stdin
  {
    var m := s.proc.run.tracker;
    RepliesEnd(m, first);
    hide Apply, Replied, CarriedOut;
    if Restarting(Replied(m, first)) {
      IdleTicks(t.proc.run.tracker, now);
    }
  }

  lemma IdleTicks(m: Machine, now: nat)
    requires m.pending && m.phase.Idle?
    ensures Replied(m, At(now, Ticked)) == []
  {
  }

  // ------------------------------------------------------------------------------------
  // What a line does besides

  /** The channel opens with the first answer of a model in the main conversation. */
  predicate Opens(cfg: Config, inputs: seq<Input>, x: Input) {
    !cfg.OneShotMode() && Speaks(x) && !Came(inputs, Speaks)
  }

  /** The window check lets the first line out. */
  predicate LetsOut(cfg: Config, inputs: seq<Input>, x: Input) {
    Answers(x) && Waits(cfg, inputs) && Enough(cfg, x)
  }

  /** The conversation was compacted in emergency mode, which ends any rotation. */
  predicate CompactedByHand(cfg: Config, inputs: seq<Input>, x: Input) {
    cfg.OneShotMode() && EndsTurn(x) && Came(inputs, Compacts)
  }

  /** What a line is besides what the tracker makes of it. */
  ghost predicate LineAdds(cfg: Config, inputs: seq<Input>, x: Input, line: Line, news: seq<Entry>) {
    && CarriedOut(news, [])
    && (ChannelOpened in news <==> Opens(cfg, inputs, x))
    && (forall first :: FirstLine(Sent(first)) ==> (Sent(first) in news <==> first == line && LetsOut(cfg, inputs, x)))
  }

  /** Entries of a line that concern neither the rotation nor the first line nor the channel. */
  predicate Aside(e: Entry) {
    e.Decided? || e.Interrupted? || e == RotationOver(ByHand)
  }

  lemma AsidesAdd(news: seq<Entry>)
    requires forall i :: 0 <= i < |news| ==> Aside(news[i])
    ensures CarriedOut(news, []) && NoneOf(news, Channel) && NoneOf(news, FirstLine)
  {
  }

  lemma ResultAdds(t: State, event: Event, now: nat) returns (news: seq<Entry>)
    requires Undecided(t) && event.Result?
    ensures OnLine(t, event, now).book.log == t.book.log + news && forall i :: 0 <= i < |news| ==> Aside(news[i])
    ensures OnLine(t, event, now).disk.marker <==> t.disk.marker && !(t.proc.cfg.OneShotMode() && t.proc.run.compacted)
  {
    hide Extend, Allowed;
    var u, oneShot := OnLine(t, event, now), t.proc.cfg.OneShotMode();
    if !oneShot {
      news := if t.proc.run.ready then [] else [Decided(Ended(1)), Interrupted];
    } else if u == t {
      news := [];
    } else {
      news := (if t.proc.run.compacted then [RotationOver(ByHand)] else []) + [Decided(Ended(EXIT_EMERGENCY)), Interrupted];
    }
  }

  lemma AnswerAdds(t: State, event: Event, now: nat) returns (news: seq<Entry>)
    requires Undecided(t) && t.proc.run.stdin && event.ContextUsage? && event.ours
    ensures var intro, want := t.proc.run.intro, t.proc.cfg.window;
            news == if intro.None? || want.None? then []
                    else if event.maxTokens.Some? && event.maxTokens.value >= want.value then [Sent(intro.value)]
                    else [Decided(Ended(EXIT_MODEL)), Interrupted]
    ensures OnLine(t, event, now).book.log == t.book.log + news && OnLine(t, event, now).disk == t.disk
  {
    hide Extend, Allowed;
    var intro, want := t.proc.run.intro, t.proc.cfg.window;
    news := if intro.None? || want.None? then []
            else if event.maxTokens.Some? && event.maxTokens.value >= want.value then [Sent(intro.value)]
            else [Decided(Ended(EXIT_MODEL)), Interrupted];
  }

  lemma OtherAdds(t: State, event: Event, now: nat) returns (news: seq<Entry>)
    requires Undecided(t) && !event.Result? && !(event.ContextUsage? && event.ours)
    ensures news == if event.ModelFallback? && event.fatal then [Decided(Ended(EXIT_MODEL)), Interrupted]
                    else if !t.proc.cfg.OneShotMode() && event.Assistant? && !event.subagent && !event.synthetic && !t.proc.run.ready
                    then [ChannelOpened] else []
    ensures OnLine(t, event, now).book.log == t.book.log + news && OnLine(t, event, now).disk == t.disk
  {
    hide Extend, Allowed;
    news := if event.ModelFallback? && event.fatal then [Decided(Ended(EXIT_MODEL)), Interrupted]
            else if !t.proc.cfg.OneShotMode() && event.Assistant? && !event.subagent && !event.synthetic && !t.proc.run.ready
            then [ChannelOpened] else [];
  }

  lemma OneEntry(e: Entry)
    requires Aside(e) || e.HeardLine? || Channel(e) || FirstLine(e)
    ensures CarriedOut([e], [])
  {
  }

  lemma StartLineIsFirst(cfg: Config, start: Start)
    ensures FirstLine(Sent(StartLine(cfg, start)))
  {
  }

  lemma AnswerLineAdds(s: State, inputs: seq<Input>, started: nat, t: State, x: Input) returns (news: seq<Entry>)
    requires Undecided(s) && Undecided(t) && Told(s, inputs, started, t) && Answers(x)
    ensures OnLine(t, x.event, x.now).book.log == t.book.log + news && OnLine(t, x.event, x.now).disk == t.disk
    ensures LineAdds(s.proc.cfg, inputs, x, StartLine(s.proc.cfg, s.proc.run.start), news)
  {
    news := AnswerAdds(t, x.event, x.now);
    var line := StartLine(s.proc.cfg, s.proc.run.start);
    StartLineIsFirst(s.proc.cfg, s.proc.run.start);
    OneEntry(Sent(line));
    hide OnLine, CarriedOut, StartLine, Came, Capped;
    if news == [Sent(line)] {
    } else {
      AsidesAdd(news);
    }
  }

  lemma OtherLineAdds(s: State, inputs: seq<Input>, started: nat, t: State, x: Input) returns (news: seq<Entry>)
    requires Undecided(s) && Undecided(t) && Told(s, inputs, started, t) && x.Hear? && !Answers(x) && !EndsTurn(x)
    ensures OnLine(t, x.event, x.now).book.log == t.book.log + news && OnLine(t, x.event, x.now).disk == t.disk
    ensures LineAdds(s.proc.cfg, inputs, x, StartLine(s.proc.cfg, s.proc.run.start), news)
  {
    news := OtherAdds(t, x.event, x.now);
    OneEntry(ChannelOpened);
    hide OnLine, CarriedOut, StartLine, Came, Capped;
    if news != [ChannelOpened] {
      AsidesAdd(news);
    }
  }

  lemma ResultLineAdds(s: State, inputs: seq<Input>, started: nat, t: State, x: Input) returns (news: seq<Entry>)
    requires Undecided(s) && Undecided(t) && Told(s, inputs, started, t) && EndsTurn(x)
    ensures OnLine(t, x.event, x.now).book.log == t.book.log + news
    ensures LineAdds(s.proc.cfg, inputs, x, StartLine(s.proc.cfg, s.proc.run.start), news)
    ensures OnLine(t, x.event, x.now).disk.marker <==> t.disk.marker && !CompactedByHand(s.proc.cfg, inputs, x)
  {
    news := ResultAdds(t, x.event, x.now);
    hide OnLine, CarriedOut, StartLine, Came, Capped;
    AsidesAdd(news);
  }

  lemma SomeLineAdds(s: State, inputs: seq<Input>, started: nat, t: State, x: Input) returns (news: seq<Entry>)
    requires Undecided(s) && Undecided(t) && Told(s, inputs, started, t) && x.Hear?
    ensures OnLine(t, x.event, x.now).book.log == t.book.log + news
    ensures LineAdds(s.proc.cfg, inputs, x, StartLine(s.proc.cfg, s.proc.run.start), news)
    ensures OnLine(t, x.event, x.now).disk.marker <==> t.disk.marker && !CompactedByHand(s.proc.cfg, inputs, x)
  {
    hide OnLine, LineAdds, Told, Came;
    if Answers(x) {
      news := AnswerLineAdds(s, inputs, started, t, x);
    } else if EndsTurn(x) {
      news := ResultLineAdds(s, inputs, started, t, x);
    } else {
      news := OtherLineAdds(s, inputs, started, t, x);
    }
  }

  // ------------------------------------------------------------------------------------
  // What a step of a run does

  /** The input itself decides how the run ends. */
  ghost predicate Ending(cfg: Config, inputs: seq<Input>, started: nat, x: Input) {
    ModelRefuses(cfg, inputs, x) || NeverSpeaks(cfg, inputs, started, x) || TurnIsOver(cfg, inputs, started, x) || Stops(inputs, x)
  }

  function NowOf(x: Input): nat {
    if x.Hear? || x.TickAt? then x.now else 0
  }

  /** The marker, but for what the supervisor does to it. */
  predicate MarkerOutside(t: State, x: Input) {
    x.WriteMarker? || (t.disk.marker && !x.RemoveMarker?)
  }

  /** From `t` to `u`, `x` is carried out: what the tracker answers to it, and what it means besides. */
  ghost predicate Does(s: State, inputs: seq<Input>, x: Input, t: State, u: State, answers: seq<Action>)
    requires s.proc.Running?
  {
    && t.proc.Running? && u.proc.Running? && GoesOn(t, u) && Notes(s.proc.cfg, inputs, x, t.proc.run.tracker, News(t, u))
    && Adds(s.proc.cfg, inputs, x, StartLine(s.proc.cfg, s.proc.run.start), News(t, u), answers)
    && (Restarting(answers) <==> u.proc.run.after.Some? && u.proc.run.after.value.Again?)
    && (Restarting(answers) ==> u.proc.run.after == AfterAll(answers, NowOf(x), s.proc.cfg) && Records(Last(answers), u.disk.next))
    && (u.disk.marker <==> if Compacted in answers || CompactedByHand(s.proc.cfg, inputs, x) then false
                           else MarkPending in answers || MarkerOutside(t, x))
  }

  ghost predicate Adds(cfg: Config, inputs: seq<Input>, x: Input, line: Line, news: seq<Entry>, answers: seq<Action>) {
    && CarriedOut(news, answers)
    && (ChannelOpened in news <==> Opens(cfg, inputs, x))
    && (forall first :: FirstLine(Sent(first)) ==> (Sent(first) in news <==> first == line && LetsOut(cfg, inputs, x)))
  }

  /** A line that is heard is recorded as such, and whether the handoff was awaited when it came. */
  predicate Notes(cfg: Config, inputs: seq<Input>, x: Input, m: Machine, news: seq<Entry>) {
    x.Hear? ==> news != [] && news[0] == HeardLine(x.event, AwaitsNote(cfg, inputs, m), x.written)
  }

  /** The handoff is awaited, with the first line out and a model that has answered. */
  predicate AwaitsNote(cfg: Config, inputs: seq<Input>, m: Machine) {
    !cfg.OneShotMode() && !Waits(cfg, inputs) && Came(inputs, Speaks) && m.phase.Handoff?
  }

  lemma NothingAdded(cfg: Config, inputs: seq<Input>, x: Input, line: Line)
    requires !x.Hear?
    ensures Adds(cfg, inputs, x, line, [], [])
  {
  }

  lemma AddsMore(cfg: Config, inputs: seq<Input>, x: Input, line: Line, e: Entry, news: seq<Entry>, more: seq<Entry>, answers: seq<Action>)
    requires e.HeardLine? && LineAdds(cfg, inputs, x, line, news)
    requires CarriedOut(more, answers) && NoneOf(more, Channel) && NoneOf(more, FirstLine)
    ensures Adds(cfg, inputs, x, line, [e] + news + more, answers)
  {
    OneEntry(e);
    CarriedOutBoth([e], news, [], []);
    CarriedOutBoth([e] + news, more, [], answers);
    var none: seq<Action> := [];
    assert none + answers == answers && none + none == none;
    hide CarriedOut;
    InSum([e], news);
    InSum([e] + news, more);
  }

  lemma TickDoes(s: State, inputs: seq<Input>, started: nat, t: State, x: Input)
    requires Undecided(s) && Undecided(t) && Told(s, inputs, started, t) && x.TickAt? && !Ending(s.proc.cfg, inputs, started, x)
    requires t.proc.cfg.Rotates() ==> t.proc.run.tracker.limits.enabled
    ensures var calls := CallsOf(s.proc.cfg, inputs, x, t.proc.run.tracker, t.disk.marker);
            && Obeys(t, StepTick(t, x.now, x.fifth), calls, x.now)
            && Compacted !in Replies(t.proc.run.tracker, calls)
  {
    TickTells(s, inputs, started, t, x);
    var calls := CallsOf(s.proc.cfg, inputs, x, t.proc.run.tracker, t.disk.marker);
    if t.proc.run.intro.Some? || s.proc.cfg.OneShotMode() {
      NothingObeys(t, x.now);
      hide Obeys, Append, Came, WentOut, Capped, StartLine, Follow, LookForMarker;
      assert StepTick(t, x.now, x.fifth) == t;
    } else {
      TickAsks(t, x.now, x.fifth, calls);
      TicksNeverEnd(t.proc.run.tracker, calls);
    }
  }

  lemma {:induction false} TicksNeverEnd(m: Machine, calls: seq<TimedCall>)
    requires forall i :: 0 <= i < |calls| ==> calls[i].call.Ticked? || calls[i].call.MarkerFound? || calls[i].call.MarkerGone?
    ensures Compacted !in Replies(m, calls)
    decreases calls
  {
    if calls != [] {
      RepliesEnd(m, calls[0]);
      hide Replied, Apply;
      assert calls[0].call.MarkerGone? ==> Replied(m, calls[0]) == [] by { GoneUnanswered(m, calls[0]); }
      TicksNeverEnd(Apply(m, calls[0]), calls[1..]);
    }
  }

  lemma GoneUnanswered(m: Machine, c: TimedCall)
    ensures c.call.MarkerGone? || c.call.NoteChecked? ==> Replied(m, c) == []
  {
  }

  /** The tracker hears a line. */
  lemma HeardObeys(w: State, event: Event, now: nat)
    requires w.proc.Running? && w.proc.run.stdin
    ensures var n, c := w.proc.run.tracker, At(now, Heard(event));
            && ObeysAs(w, Follow(w, now, OnEvent(n, event, now)), Apply(n, c), Replied(n, c), now)
            && (Compacted in Replied(n, c) ==> |Replied(n, c)| == 1)
  {
    var n, c := w.proc.run.tracker, At(now, Heard(event));
    assert OnEvent(n, event, now) == Reply(Apply(n, c), Replied(n, c));
    RepliesEnd(n, c);
    FollowObeys(w, c);
  }

  /** The calls that a line is. */
  function LineCalls(m: Machine, event: Event, written: bool, now: nat): seq<TimedCall> {
    if event.Result? && m.phase.Handoff? then [At(now, NoteChecked(written)), At(now, Heard(event))] else [At(now, Heard(event))]
  }

  lemma LineCallsAre(m: Machine, event: Event, written: bool, now: nat)
    ensures var n := if event.Result? && m.phase.Handoff? then m.(noteWritten := written) else m;
            var c := At(now, Heard(event));
            && AfterCalls(m, LineCalls(m, event, written, now)) == Apply(n, c)
            && Replies(m, LineCalls(m, event, written, now)) == Replied(n, c)
  {
    var first, c := At(now, NoteChecked(written)), At(now, Heard(event));
    OneCall(m, c);
    TwoCalls(m, first, c);
    hide OnEvent;
    assert Replied(m, first) == [] && Apply(m, first) == m.(noteWritten := written);
    var n := m.(noteWritten := written);
    assert [] + Replied(n, c) == Replied(n, c);
  }

  /** The tracker hears a line, after a look at the note if a turn that is awaited ends. */
  lemma LineObeys(v: State, event: Event, written: bool, now: nat)
    requires Undecided(v) && v.proc.run.stdin
    ensures var m := v.proc.run.tracker;
            var n := if event.Result? && m.phase.Handoff? then m.(noteWritten := written) else m;
            var calls := LineCalls(m, event, written, now);
            && Obeys(v, Follow(v, now, OnEvent(n, event, now)), calls, now)
            && (Compacted in Replies(m, calls) ==> |Replies(m, calls)| == 1)
  {
    var m := v.proc.run.tracker;
    var n := if event.Result? && m.phase.Handoff? then m.(noteWritten := written) else m;
    var w := WithRun(v, v.proc.run.(tracker := n));
    LineCallsAre(m, event, written, now);
    HeardObeys(w, event, now);
    SameFollow(v, n, now, OnEvent(n, event, now));
    hide Follow, OnEvent, Replied, Apply, CarriedOut, AfterCalls, Replies, LineCalls, NoneOf, GoesOn, News, AfterAll;
    SameNews(v, w, Follow(v, now, OnEvent(n, event, now)));
  }

  lemma SameFollow(v: State, n: Machine, now: nat, reply: Reply)
    requires v.proc.Running?
    ensures Follow(v, now, reply) == Follow(WithRun(v, v.proc.run.(tracker := n)), now, reply)
  {
  }

  lemma SameNews(v: State, w: State, u: State)
    requires v.book == w.book
    ensures News(v, u) == News(w, u) && (GoesOn(v, u) <==> GoesOn(w, u))
  {
  }

  /** A line as such, and then what the tracker makes of it. */
  lemma LineAndTracker(
    s: State, inputs: seq<Input>, x: Input, t: State, v: State, u: State, e: Entry, news: seq<Entry>, m: Machine, answers: seq<Action>)
    requires Undecided(s) && Undecided(t) && Undecided(v) && x.Hear? && v.book.log == t.book.log + ([e] + news)
    requires LineAdds(s.proc.cfg, inputs, x, StartLine(s.proc.cfg, s.proc.run.start), news)
    requires e == HeardLine(x.event, AwaitsNote(s.proc.cfg, inputs, t.proc.run.tracker), x.written)
    requires v.disk.marker == t.disk.marker && !CompactedByHand(s.proc.cfg, inputs, x) && v.proc.cfg == s.proc.cfg
    requires ObeysAs(v, u, m, answers, x.now) && (Compacted in answers ==> |answers| == 1)
    ensures Does(s, inputs, x, t, u, answers)
  {
    NewsIs(t, v, [e] + news);
    NewsSum(t, v, u);
    AddsMore(s.proc.cfg, inputs, x, StartLine(s.proc.cfg, s.proc.run.start), e, news, News(v, u), answers);
    assert ([e] + news + News(v, u))[0] == e && [e] + news + News(v, u) == ([e] + news) + News(v, u);
    hide CarriedOut, LineAdds, Adds, NoneOf, StartLine, News, CompactedByHand, AwaitsNote;
  }

  /** `v` is what a line makes of `t` before the tracker hears it. */
  predicate Heads(t: State, x: Input, v: State, e: Entry)
    requires x.Hear?
  {
    && Undecided(t) && Undecided(v) && e.HeardLine? && v == OnLine(Emit(t, e), x.event, x.now)
    && StepHear(t, x.event, x.written, x.now)
       == if v.proc.run.stopping || v.proc.run.intro.Some? then v
          else Follow(v, x.now, OnEvent(LooksAt(v.proc.run.tracker, x), x.event, x.now))
  }

  function LooksAt(m: Machine, x: Input): Machine
    requires x.Hear?
  {
    if x.event.Result? && m.phase.Handoff? then m.(noteWritten := x.written) else m
  }

  lemma HearHeads(s: State, inputs: seq<Input>, started: nat, t: State, x: Input) returns (v: State, e: Entry)
    requires Undecided(s) && Undecided(t) && Told(s, inputs, started, t) && x.Hear? && !Ending(s.proc.cfg, inputs, started, x)
    ensures Heads(t, x, v, e) && v.proc.cfg == s.proc.cfg && v.proc.run.tracker == t.proc.run.tracker
    ensures v.proc.run.stdin && !v.proc.run.stopping && (v.proc.run.intro.Some? <==> Waits(s.proc.cfg, inputs + [x]))
    ensures Told(s, inputs, started, Emit(t, e)) && e == HeardLine(x.event, AwaitsNote(s.proc.cfg, inputs, t.proc.run.tracker), x.written)
  {
    var run := t.proc.run;
    var awaiting := !run.stopping && run.intro.None? && run.ready && run.tracker.phase.Handoff?;
    e := HeardLine(x.event, awaiting, x.written);
    hide OnLine, Append, OnEvent, Act;
    SameRun(s, inputs, started, t, Emit(t, e));
    LineDecides(s, inputs, started, Emit(t, e), x);
    v := OnLine(Emit(t, e), x.event, x.now);
    hide Waits, Came, Capped, StartLine, Ending, DecidesBy;
    NotEnding(s.proc.cfg, inputs, started, x, v.proc.run.after);
  }

  lemma HearDoes(s: State, inputs: seq<Input>, started: nat, t: State, x: Input)
    requires Undecided(s) && Undecided(t) && Told(s, inputs, started, t) && x.Hear? && !Ending(s.proc.cfg, inputs, started, x)
    ensures var m, u := t.proc.run.tracker, StepHear(t, x.event, x.written, x.now);
            var calls := CallsOf(s.proc.cfg, inputs, x, m, t.disk.marker);
            && Does(s, inputs, x, t, u, Replies(m, calls)) && u.proc.run.tracker == AfterCalls(m, calls)
  {
    hide OnLine, Told, Came, LineAdds, StartLine, Ending, DecidesBy, OnEvent, StepHear, Follow, Extend, Allowed, CompactedByHand, Waits, LineCalls;
    var v, e := HearHeads(s, inputs, started, t, x);
    var news := SomeLineAdds(s, inputs, started, Emit(t, e), x);
    assert v.book.log == t.book.log + ([e] + news);
    assert !CompactedByHand(s.proc.cfg, inputs, x) by { NotByHand(s.proc.cfg, inputs, started, x); }
    var m, u := t.proc.run.tracker, StepHear(t, x.event, x.written, x.now);
    if Waits(s.proc.cfg, inputs + [x]) {
      NothingObeys(v, x.now);
      LineAndTracker(s, inputs, x, t, v, u, e, news, m, []);
    } else {
      var calls := LineCalls(m, x.event, x.written, x.now);
      LineObeys(v, x.event, x.written, x.now);
      LineAndTracker(s, inputs, x, t, v, u, e, news, AfterCalls(m, calls), Replies(m, calls));
    }
  }

  lemma NotByHand(cfg: Config, inputs: seq<Input>, started: nat, x: Input)
    requires !Ending(cfg, inputs, started, x)
    ensures !CompactedByHand(cfg, inputs, x)
  {
  }

  lemma NotEnding(cfg: Config, inputs: seq<Input>, started: nat, x: Input, after: Option<Outcome>)
    requires !Ending(cfg, inputs, started, x) && DecidesBy(cfg, inputs, started, x, after)
    ensures after.Some? ==> after.value.Again?
    ensures !CompactedByHand(cfg, inputs, x)
  {
    hide ModelRefuses, NeverSpeaks, Stops;
  }

  lemma OtherDoes(s: State, inputs: seq<Input>, started: nat, t: State, x: Input)
    requires Undecided(s) && Undecided(t) && Told(s, inputs, started, t) && !x.Hear? && !x.TickAt?
    requires !Ending(s.proc.cfg, inputs, started, x) && Transition(t, x).proc.Running?
    ensures var m, u := t.proc.run.tracker, Transition(t, x);
            var calls := CallsOf(s.proc.cfg, inputs, x, m, t.disk.marker);
            && Does(s, inputs, x, t, u, Replies(m, calls)) && u.proc.run.tracker == AfterCalls(m, calls)
  {
    hide Extend, Allowed, Capped, StartLine, CarriedOut, StepPlan;
    NothingDone(t);
    NothingAdded(s.proc.cfg, inputs, x, StartLine(s.proc.cfg, s.proc.run.start));
    var u := Transition(t, x);
    assert u.book == t.book && u.proc == t.proc;
  }

  lemma TickCarried(s: State, inputs: seq<Input>, x: Input, t: State, u: State, m: Machine, answers: seq<Action>)
    requires Undecided(s) && Undecided(t) && t.proc.cfg == s.proc.cfg && x.TickAt?
    requires ObeysAs(t, u, m, answers, x.now) && Compacted !in answers
    ensures Does(s, inputs, x, t, u, answers)
  {
    hide CarriedOut, News;
  }

  /** The calls that the tracker gets in a run. */
  function Calls(s: State, inputs: seq<Input>): seq<TimedCall>
    requires s.proc.Running?
    decreases inputs, 0
  {
    if inputs == [] then []
    else Calls(s, Init(inputs)) + NextCalls(s, Init(inputs), Last(inputs))
  }

  function NextCalls(s: State, inputs: seq<Input>, x: Input): seq<TimedCall>
    requires s.proc.Running?
    decreases inputs, 1
  {
    CallsOf(s.proc.cfg, inputs, x, AfterCalls(s.proc.run.tracker, Calls(s, inputs)), Execute(s, inputs).disk.marker)
  }

  /** Claude has just been started, and the tracker with it. */
  predicate BegunWith(s: State, started: nat) {
    && Begun(s, started) && RotationHeard.Starts(s.proc.run.tracker, started)
    && s.proc.run.tracker.limits == s.proc.cfg.limits.(enabled := s.proc.cfg.Rotates())
  }

  lemma OneStepDoes(s: State, inputs: seq<Input>, started: nat, t: State, x: Input)
    requires Undecided(s) && Undecided(t) && Told(s, inputs, started, t)
    requires t.proc.cfg.Rotates() ==> t.proc.run.tracker.limits.enabled
    requires !Ending(s.proc.cfg, inputs, started, x) && Transition(t, x).proc.Running?
    ensures var m, u := t.proc.run.tracker, Transition(t, x);
            var calls := CallsOf(s.proc.cfg, inputs, x, m, t.disk.marker);
            && Does(s, inputs, x, t, u, Replies(m, calls)) && u.proc.run.tracker == AfterCalls(m, calls)
  {
    hide Told, Ending, StepHear, StepTick, Does, Obeys, Replies, CallsOf;
    assert t.proc.cfg == s.proc.cfg by { ToldConfig(s, inputs, started, t); }
    match x {
      case Hear(_, _, _) => HearDoes(s, inputs, started, t, x);
      case TickAt(_, _) =>
        var m := t.proc.run.tracker;
        var calls := CallsOf(s.proc.cfg, inputs, x, m, t.disk.marker);
        TickDoes(s, inputs, started, t, x);
        ObeysMeans(t, StepTick(t, x.now, x.fifth), calls, x.now);
        TickCarried(s, inputs, x, t, StepTick(t, x.now, x.fifth), AfterCalls(m, calls), Replies(m, calls));
      case _ => OtherDoes(s, inputs, started, t, x);
    }
  }

  lemma ToldConfig(s: State, inputs: seq<Input>, started: nat, t: State)
    requires s.proc.Running? && t.proc.Running? && Told(s, inputs, started, t)
    ensures t.proc.cfg == s.proc.cfg
  {
  }

  lemma ObeysMeans(s: State, t: State, calls: seq<TimedCall>, now: nat)
    requires s.proc.Running? && Obeys(s, t, calls, now)
    ensures ObeysAs(s, t, AfterCalls(s.proc.run.tracker, calls), Replies(s.proc.run.tracker, calls), now)
    ensures t.proc.Running? && t.proc.run.tracker == AfterCalls(s.proc.run.tracker, calls)
  {
  }

  lemma NoCalls(m: Machine)
    ensures AfterCalls(m, []) == m && Replies(m, []) == []
  {
  }

  lemma {:induction false} CallsSum(m: Machine, a: seq<TimedCall>, b: seq<TimedCall>)
    ensures AfterCalls(m, a + b) == AfterCalls(AfterCalls(m, a), b)
    decreases a
  {
    hide Apply;
    if a == [] {
      assert a + b == b;
    } else {
      assert (a + b)[0] == a[0] && (a + b)[1..] == a[1..] + b;
      CallsSum(Apply(m, a[0]), a[1..], b);
    }
  }

  /** A run that goes on was not ended by its last input. */
  lemma GoesOnUnended(s: State, inputs: seq<Input>, started: nat, x: Input)
    requires Begun(s, started) && InRun(s, inputs) && Undecided(Execute(s, inputs + [x]))
    ensures !Ending(s.proc.cfg, inputs, started, x)
  {
    EndsExactly(s, inputs, started, x);
    hide ModelRefuses, NeverSpeaks, TurnIsOver, Stops, Execute, InRun, Begun;
  }

  /** In every run of claude the tracker gets exactly these calls. */
  lemma {:induction false} TrackerGets(s: State, inputs: seq<Input>, started: nat)
    requires BegunWith(s, started) && InRun(s, inputs)
    ensures Execute(s, inputs).proc.run.tracker == AfterCalls(s.proc.run.tracker, Calls(s, inputs))
    decreases inputs
  {
    hide Begun, Told, Transition, Does, AfterCalls, CallsOf, Ending;
    assert Undecided(s) by { BegunIsUndecided(s, started); }
    var m := s.proc.run.tracker;
    if inputs == [] {
      NoCalls(m);
    } else {
      var init, x := Init(inputs), Last(inputs);
      assert inputs == init + [x];
      TrackerGets(s, init, started);
      var t := Execute(s, init);
      RunTells(s, init, started);
      ToldConfig(s, init, started, t);
      OneMore(s, init, x);
      GoesOnUnended(s, init, started, x);
      RotationHeard.RemembersCalls(m, started, Calls(s, init));
      OneStepDoes(s, init, started, t, x);
      CallsSum(m, Calls(s, init), NextCalls(s, init, x));
    }
  }

  /**
    What a run does at a step, for every run and every input that does not end it: exactly what the
    tracker answers to the calls that the input is after those before it, the channel with the
    first answer of a model, the first line with the window check.
   */
  lemma DoesExactly(s: State, inputs: seq<Input>, started: nat, x: Input)
    requires BegunWith(s, started) && InRun(s, inputs)
    requires !Ending(s.proc.cfg, inputs, started, x) && Execute(s, inputs + [x]).proc.Running?
    ensures var m := AfterCalls(s.proc.run.tracker, Calls(s, inputs));
            Does(s, inputs, x, Execute(s, inputs), Execute(s, inputs + [x]), Replies(m, NextCalls(s, inputs, x)))
  {
    hide Begun, Told, Transition, Does, AfterCalls, CallsOf, Ending;
    assert Undecided(s) by { BegunIsUndecided(s, started); }
    var m, t := s.proc.run.tracker, Execute(s, inputs);
    TrackerGets(s, inputs, started);
    RunTells(s, inputs, started);
    ToldConfig(s, inputs, started, t);
    OneMore(s, inputs, x);
    RotationHeard.RemembersCalls(m, started, Calls(s, inputs));
    OneStepDoes(s, inputs, started, t, x);
  }

  // ------------------------------------------------------------------------------------
  // How a run begins

  /** The next start carries on with the saved conversation, as after any end of claude. */
  predicate CarriesOn(disk: Disk) {
    HasTranscript(disk) && (disk.next.Normal? || disk.next.Postponed?)
  }

  /** The next start asks for the handoff with its first line. */
  predicate AsksAgain(disk: Disk) {
    HasTranscript(disk) && disk.next.NextRetry?
  }

  /** The next start follows a session that was given up, with this flag of its note. */
  predicate Succeeds(disk: Disk, handoff: bool) {
    (disk.next.Fresh? || (disk.next.NextRetry? && !HasTranscript(disk))) && disk.next.handoff == handoff
  }

  /** Which line begins a run, from the configuration and the disk. */
  ghost predicate BeginsWith(cfg: Config, disk: Disk, line: Line) {
    && (line == EmergencyLine <==> cfg.OneShotMode() || (cfg.emergency.Prompt? && CarriesOn(disk)))
    && (line == Intro(Resumed) <==> !cfg.OneShotMode() && !cfg.emergency.Prompt? && CarriesOn(disk))
    && (line == Intro(RetryStart) <==> !cfg.OneShotMode() && AsksAgain(disk))
    && (forall handoff :: line == Intro(AfterRotation(handoff)) <==> !cfg.OneShotMode() && Succeeds(disk, handoff))
    && (line == Intro(NewSession) <==>
          !cfg.OneShotMode() && !HasTranscript(disk) && (disk.next.Normal? || disk.next.Postponed?))
  }

  /** How the tracker begins, from the configuration and the disk. */
  predicate TracksFrom(cfg: Config, disk: Disk, notBefore: Option<nat>, now: nat, m: Machine) {
    if !cfg.OneShotMode() && AsksAgain(disk) then
      m.pending && m.phase == Handoff(now + cfg.limits.handoff) && m.attempts == disk.next.attempts && m.handoff == disk.next.handoff
    else if cfg.Rotates() && disk.marker && CarriesOn(disk) then
      && m.pending && m.phase.Waiting? && m.notBefore == notBefore
      && (if disk.next.Postponed? then m.attempts == disk.next.attempts && m.handoff == disk.next.handoff
          else m.attempts == 0 && !m.handoff)
    else !m.pending && m.phase.Idle?
  }

  lemma PlansAs(s: State, newId: string)
    ensures var p := PlanStart(s, newId);
            && (p.start.kind.Resumed? <==> CarriesOn(s.disk)) && (p.start.kind.RetryStart? <==> AsksAgain(s.disk))
            && (forall handoff :: p.start.kind == AfterRotation(handoff) <==> Succeeds(s.disk, handoff))
            && (p.start.kind.NewSession? <==> !HasTranscript(s.disk) && (s.disk.next.Normal? || s.disk.next.Postponed?))
            && (CarriesOn(s.disk) || AsksAgain(s.disk) ==> p.state.disk.marker == s.disk.marker)
            && (!CarriesOn(s.disk) && !AsksAgain(s.disk) ==> !p.state.disk.marker)
            && (AsksAgain(s.disk) || (CarriesOn(s.disk) && s.disk.marker && s.disk.next.Postponed?) ==>
                  p.start.attempts == s.disk.next.attempts && p.start.handoff == s.disk.next.handoff)
            && (AsksAgain(s.disk) ==> p.start.snapshot == s.disk.next.snapshot)
            && (CarriesOn(s.disk) && !s.disk.next.Postponed? ==> p.start.attempts == 0 && !p.start.handoff)
            && p.state.stopRequested == s.stopRequested
  {
    hide Append;
  }

  predicate Starting(e: Entry) {
    e.Spawned?
  }

  lemma PlanAdds(s: State, newId: string) returns (news: seq<Entry>)
    ensures PlanStart(s, newId).state.book.log == s.book.log + news && NoneOf(news, FirstLine) && Snapped(BeforeHandoff) !in news && NoneOf(news, Starting)
  {
    hide Extend, Allowed;
    var disk := s.disk;
    var id := NewId(disk.id, disk.Resumable(), newId, PlanStart(s, newId).start.kind);
    news := if disk.next.Fresh? || (disk.next.NextRetry? && !disk.Resumable()) then [id, RotationOver(ByNewId)]
            else if !disk.Resumable() then [RotationOver(ByNewId), NewId(disk.id, false, newId, NewSession)]
            else if disk.next.NextRetry? || disk.marker then []
            else [RotationOver(NothingPending)];
  }

  lemma BeginsTracker(s: State, cfg: Config, start: Start, notBefore: Option<nat>, now: nat)
    requires !s.stopRequested
    ensures var t := Begin(s, cfg, start, notBefore, now);
            var m := t.proc.run.tracker;
            && BegunWith(t, now) && t.disk == s.disk && t.proc.run.start == start && t.proc.cfg == cfg
            && (if start.kind.RetryStart? then
                  m.pending && m.phase == Handoff(now + cfg.limits.handoff) && m.attempts == start.attempts && m.handoff == start.handoff
                else if cfg.Rotates() && s.disk.marker then
                  m.pending && m.phase.Waiting? && m.notBefore == notBefore && m.attempts == start.attempts && m.handoff == start.handoff
                else !m.pending && m.phase.Idle?)
  {
    BeginsRun(s, cfg, start, notBefore, now);
    RotationHeard.StartsAre(cfg.limits.(enabled := cfg.Rotates()), now, notBefore, start.attempts, start.handoff);
    hide Append, StartLine, Begun, RotationHeard.Starts;
  }

  lemma BeginAdds(s: State, cfg: Config, start: Start, notBefore: Option<nat>, now: nat) returns (news: seq<Entry>)
    ensures Begin(s, cfg, start, notBefore, now).book.log == s.book.log + news
    ensures forall first :: FirstLine(Sent(first)) ==> (Sent(first) in news <==> cfg.window.None? && first == StartLine(cfg, start))
    ensures Snapped(BeforeHandoff) in news <==> start.kind.RetryStart? && start.snapshot
    ensures forall oneShot, window :: Spawned(oneShot, window) in news <==> oneShot == cfg.OneShotMode() && window == cfg.window
  {
    hide Extend, Allowed, StartTracker, StartLine;
    news := [Spawned(cfg.OneShotMode(), cfg.window)] + (if start.kind.RetryStart? && start.snapshot then [Snapped(BeforeHandoff)] else [])
            + (if cfg.window.None? then [Sent(StartLine(cfg, start))] else []);
  }

  /**
    How a run begins, for every disk: with which line, sent at once unless the window is checked
    first, with the snapshot still due, and with which tracker.
   */
  lemma BeginsExactly(s: State, cfg: Config, newId: string, now: nat)
    requires s.proc.Between? && s.proc.cfg == cfg && Transition(s, Plan(newId, now, true)).proc.Running?
    ensures var t := Transition(s, Plan(newId, now, true));
            var line := StartLine(cfg, t.proc.run.start);
            && BegunWith(t, now) && t.proc.cfg == cfg && BeginsWith(cfg, s.disk, line)
            && TracksFrom(cfg, s.disk, s.proc.notBefore, now, t.proc.run.tracker)
            && (forall first :: FirstLine(Sent(first)) ==> (Sent(first) in News(s, t) <==> cfg.window.None? && first == line))
            && (forall oneShot, window :: Spawned(oneShot, window) in News(s, t) <==> oneShot == cfg.OneShotMode() && window == cfg.window)
            && (Snapped(BeforeHandoff) in News(s, t) <==> !cfg.OneShotMode() && AsksAgain(s.disk) && s.disk.next.snapshot)
  {
    hide Append, PlanStart, Begin, BegunWith, NoneOf;
    var t, notBefore := Transition(s, Plan(newId, now, true)), s.proc.notBefore;
    var one := Start(if s.disk.id.Some? then s.disk.id.value else "", true, Resumed, 0, false, false);
    PlansAs(s, newId);
    var p := if cfg.OneShotMode() then Planned(s, one) else PlanStart(s, newId);
    assert t == Begin(p.state, cfg, p.start, notBefore, now);
    BeginsTracker(p.state, cfg, p.start, notBefore, now);
    var begun := BeginAdds(p.state, cfg, p.start, notBefore, now);
    if cfg.OneShotMode() {
      NewsIs(s, t, begun);
    } else {
      var planned := PlanAdds(s, newId);
      NoFirst(planned);
      InSum(planned, begun);
      NewsIs(s, t, planned + begun);
    }
    hide News;
    LineFor(cfg, s.disk, p.start);
  }

  lemma LineFor(cfg: Config, disk: Disk, start: Start)
    requires cfg.OneShotMode() || (start.kind.Resumed? <==> CarriesOn(disk))
    requires cfg.OneShotMode() || (start.kind.RetryStart? <==> AsksAgain(disk))
    requires cfg.OneShotMode() || forall handoff :: start.kind == AfterRotation(handoff) <==> Succeeds(disk, handoff)
    requires cfg.OneShotMode() || (start.kind.NewSession? <==> !HasTranscript(disk) && (disk.next.Normal? || disk.next.Postponed?))
    ensures BeginsWith(cfg, disk, StartLine(cfg, start))
  {
    var line := StartLine(cfg, start);
    forall handoff ensures line == Intro(AfterRotation(handoff)) <==> !cfg.OneShotMode() && Succeeds(disk, handoff) {
      assert !cfg.OneShotMode() ==> (start.kind == AfterRotation(handoff) <==> Succeeds(disk, handoff));
    }
    hide Succeeds;
  }

  lemma NoFirst(news: seq<Entry>)
    requires NoneOf(news, FirstLine) && NoneOf(news, Starting)
    ensures forall first :: FirstLine(Sent(first)) ==> Sent(first) !in news
    ensures forall oneShot, window :: Spawned(oneShot, window) !in news
  {
  }

  // ------------------------------------------------------------------------------------
  // The pause lasts into the next run

  /** What one call makes the tracker ask for, a pending rotation asks after its pause. */
  lemma AsksAfterPause(m: Machine, started: nat, calls: seq<TimedCall>, c: TimedCall)
    requires RotationHeard.Starts(m, started) && UnderWayThroughout(m, calls)
    requires RequestHandoff in Replied(AfterCalls(m, calls), c)
    ensures m.notBefore.Some? ==> m.notBefore.value <= c.now
  {
    RotationHeard.AsksExactly(m, started, calls, c);
    RotationHeard.PauseStays(m, started, calls);
  }

  lemma {:induction false} CheckKeepsPause(m: Machine, calls: seq<TimedCall>, c: TimedCall)
    requires UnderWayThroughout(m, calls) && c.call.NoteChecked?
    ensures UnderWayThroughout(m, calls + [c])
    decreases calls
  {
    hide Apply;
    if calls == [] {
      assert [] + [c] == [c] && [c][1..] == [];
      assert UnderWay(Apply(m, c)) by { CheckKeepsUnderWay(m, c); }
      assert UnderWayThroughout(Apply(m, c), []);
    } else {
      assert (calls + [c])[0] == calls[0] && (calls + [c])[1..] == calls[1..] + [c];
      CheckKeepsPause(Apply(m, calls[0]), calls[1..], c);
    }
  }

  lemma CheckKeepsUnderWay(m: Machine, c: TimedCall)
    requires UnderWay(m) && c.call.NoteChecked?
    ensures UnderWay(Apply(m, c))
  {
  }

  lemma {:induction false} UnderWayAfter(m: Machine, calls: seq<TimedCall>)
    requires UnderWayThroughout(m, calls)
    ensures UnderWay(AfterCalls(m, calls))
    decreases calls
  {
    if calls != [] {
      UnderWayAfter(Apply(m, calls[0]), calls[1..]);
    }
  }

  /** In a run that begins with a pause, no line asks for the handoff before it is over. */
  lemma WaitsOut(s: State, started: nat, inputs: seq<Input>, y: Input)
    requires BegunWith(s, started) && InRun(s, inputs) && UnderWayThroughout(s.proc.run.tracker, Calls(s, inputs))
    requires !Ending(s.proc.cfg, inputs, started, y) && Execute(s, inputs + [y]).proc.Running?
    requires y.TickAt? ==> Execute(s, inputs).disk.marker
    requires Sent(HandoffRequest) in News(Execute(s, inputs), Execute(s, inputs + [y]))
    ensures s.proc.run.tracker.notBefore.Some? ==> s.proc.run.tracker.notBefore.value <= NowOf(y)
  {
    DoesExactly(s, inputs, started, y);
    var m, calls, more := s.proc.run.tracker, Calls(s, inputs), NextCalls(s, inputs, y);
    var n := AfterCalls(m, calls);
    UnderWayAfter(m, calls);
    assert RequestHandoff in Replies(n, more);
    hide Begun, Ending, InRun, Execute, RotationHeard.Starts, News, Calls, Apply, Replied, UnderWayThroughout, Waits;
    NoCalls(n);
    var now := NowOf(y);
    if more == [At(now, Ticked)] {
      OneCall(n, more[0]);
      AsksAfterPause(m, started, calls, more[0]);
    } else {
      assert y.Hear? && more == LineCalls(n, y.event, y.written, now);
      LineCallsAre(n, y.event, y.written, now);
      var check, heard := At(now, NoteChecked(y.written)), At(now, Heard(y.event));
      if y.event.Result? && n.phase.Handoff? {
        CheckKeepsPause(m, calls, check);
        RotationHeard.AfterMore(m, calls, check);
        assert Apply(n, check) == n.(noteWritten := y.written) by { Checked(n, check); }
        AsksAfterPause(m, started, calls + [check], heard);
      } else {
        AsksAfterPause(m, started, calls, heard);
      }
    }
  }

  lemma Checked(m: Machine, c: TimedCall)
    requires c.call.NoteChecked?
    ensures Apply(m, c) == m.(noteWritten := c.call.written)
  {
  }

  /** An attempt failed at `x`. */
  predicate FailsAt(s: State, inputs: seq<Input>, x: Input)
    requires s.proc.Running?
  {
    var answers := Replies(AfterCalls(s.proc.run.tracker, Calls(s, inputs)), NextCalls(s, inputs, x));
    answers != [] && Last(answers).Postpone?
  }

  lemma FailureDecides(s: State, inputs: seq<Input>, started: nat, x: Input)
    requires BegunWith(s, started) && InRun(s, inputs) && !Ending(s.proc.cfg, inputs, started, x)
    requires Execute(s, inputs + [x]).proc.Running? && FailsAt(s, inputs, x)
    ensures Execute(s, inputs + [x]).proc.run.after == Some(Again(Some(NowOf(x) + s.proc.cfg.limits.retryPause)))
  {
    hide Begun, Ending, InRun, Execute, Adds, Calls, NextCalls, Replies, AfterCalls, News, CompactedByHand;
    DoesExactly(s, inputs, started, x);
  }

  /** Where claude is started again. */
  lemma StartsAgain(u: State, exit: Input, newId: string, now: nat, cfg: Config, notBefore: Option<nat>)
    requires u.proc.Running? && u.proc.run.after == Some(Again(notBefore)) && u.proc.cfg == cfg && Exits(exit)
    requires Transition(Transition(u, exit), Plan(newId, now, true)).proc.Running?
    ensures var v := Transition(Transition(u, exit), Plan(newId, now, true));
            && BegunWith(v, now) && v.proc.cfg == cfg
            && (v.proc.run.tracker.phase.Waiting? ==> v.proc.run.tracker.notBefore == notBefore)
  {
    DecidedExit(u, exit);
    hide Transition, BegunWith, BeginsWith, StartLine, LeftWith, News;
    BeginsExactly(Transition(u, exit), cfg, newId, now);
  }

  lemma SameConfig(s: State, inputs: seq<Input>, started: nat, x: Input)
    requires BegunWith(s, started) && InRun(s, inputs) && Execute(s, inputs + [x]).proc.Running?
    ensures Execute(s, inputs + [x]).proc.cfg == s.proc.cfg
  {
    StopIsKnown(s, inputs, started, x);
  }

  /**
    After an attempt failed, the run that follows asks for the handoff of the same rotation only
    when the pause, counted from the failure, is over, however often it hears or ticks before.
   */
  lemma PauseLasts(
    s: State, inputs: seq<Input>, started: nat, x: Input, exit: Input, newId: string, now: nat, later: seq<Input>, y: Input)
    requires BegunWith(s, started) && InRun(s, inputs) && !Ending(s.proc.cfg, inputs, started, x) && Exits(exit)
    requires Execute(s, inputs + [x]).proc.Running? && FailsAt(s, inputs, x)
    requires var v := Transition(Transition(Execute(s, inputs + [x]), exit), Plan(newId, now, true));
             && v.proc.Running? && v.proc.run.tracker.phase.Waiting?
             && InRun(v, later) && UnderWayThroughout(v.proc.run.tracker, Calls(v, later)) && !Ending(v.proc.cfg, later, now, y)
             && (y.TickAt? ==> Execute(v, later).disk.marker) && Execute(v, later + [y]).proc.Running?
             && Sent(HandoffRequest) in News(Execute(v, later), Execute(v, later + [y]))
    ensures NowOf(y) >= NowOf(x) + s.proc.cfg.limits.retryPause
  {
    assert Undecided(s) by { BegunIsUndecided(s, started); }
    hide BegunWith, InRun, Ending, Execute, Transition, Calls, News, FailsAt, UnderWayThroughout;
    var u := Execute(s, inputs + [x]);
    FailureDecides(s, inputs, started, x);
    SameConfig(s, inputs, started, x);
    StartsAgain(u, exit, newId, now, s.proc.cfg, Some(NowOf(x) + s.proc.cfg.limits.retryPause));
    var v := Transition(Transition(u, exit), Plan(newId, now, true));
    WaitsOut(v, now, later, y);
  }
}
