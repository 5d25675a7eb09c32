/**
  What a supervisor does over all its runs, as a history, and which histories are safe.

  An `Entry` is one thing that happened: a start of claude, a line heard from it or sent to
  it, a snapshot, a record on disk, a decision about how the run ends. `Summary` is what
  matters of a history, computed entry by entry, and `Allowed` says which entry may follow
  a history. A history is safe when every one of its entries was allowed by what came
  before it.
 */
module History {
  import opened Prelude
  import opened Rotation

  /** What the next start of claude is, on disk (crates/silta-session/src/state.rs). */
  datatype Next =
    | Normal
    | NextRetry(snapshot: bool, attempts: nat, handoff: bool)
    | Postponed(attempts: nat, handoff: bool)
    | Fresh(handoff: bool)

  /** The ways a session can begin, each with a first line of its own. */
  datatype Kind = NewSession | Resumed | AfterRotation(handoff: bool) | RetryStart

  datatype Outcome = Exit(code: int) | Ended(code: int) | Again(notBefore: Option<nat>)

  /** The lines that start or carry on a turn. */
  datatype Line = Intro(kind: Kind) | EmergencyLine | HandoffRequest | CompactCommand | CompactedNote

  /** How a rotation is over: by its compaction, by hand, by a new session id, or because
      nothing was pending at a start. */
  datatype Over = ByCompaction | ByHand | ByNewId | NothingPending

  const EXIT_MODEL := 79
  const EXIT_EMERGENCY := 80

  datatype Entry =
    | Booted
    | NewId(replaced: Option<string>, resumable: bool, id: string, kind: Kind)
    | Spawned(oneShot: bool, window: Option<nat>)
    | HeardLine(event: Event, awaiting: bool, written: bool)
    | Snapped(moment: Moment)
    | Sent(line: Line)
    | Recorded(next: Next)
    | RotationOver(how: Over)
    | Decided(outcome: Outcome)
    | ChannelOpened
    | Interrupted
    | Exited(code: int, oneShot: bool, stopRequested: bool)

  /** The two lines that ask for the handoff: the request, and the combined line of a
      session resumed after a cut. */
  predicate AsksForHandoff(line: Line) {
    line.HandoffRequest? || line == Intro(RetryStart)
  }

  /** A turn that ended without an error, while the handoff was awaited, with the note
      written. */
  predicate WroteNote(e: Entry) {
    e.HeardLine? && e.event.Result? && !e.event.isError && e.awaiting && e.written
  }

  /** What a history comes to. The first six fields concern the current rotation, the next
      five the current run of claude. */
  datatype Summary = Summary(
    snapped: bool,          // a before-handoff snapshot was taken
    noted: bool,            // some turn wrote the note
    noteKept: bool,         // and nothing interrupted the supervisor since the last such turn
    spent: nat,             // attempts recorded as spent
    interruptions: nat,     // stops, deaths and endings from outside
    asked: nat,             // lines that asked for the handoff
    decided: Option<Outcome>,
    window: Option<nat>,
    windowSeen: bool,       // an answer of at least the window, or no window configured
    compacting: bool,       // `/compact` was sent
    boundary: bool,         // and a boundary that was not automatic came after it
    spawns: nat,            // starts of claude in this process
    last: Option<Entry>)

  const Nothing := Summary(false, false, false, 0, 0, 0, None, None, false, false, false, 0, None)

  function AfterRotationOver(s: Summary): Summary {
    s.(snapped := false, noted := false, noteKept := false, spent := 0, interruptions := 0, asked := 0)
  }

  function Extend(s: Summary, e: Entry): Summary {
    var t := s.(last := Some(e));
    match e
    case Booted => t.(spawns := 0)
    case Spawned(_, window) =>
      t.(decided := None, window := window, windowSeen := window.None?, compacting := false, boundary := false,
         spawns := s.spawns + 1)
    case HeardLine(event, awaiting, written) =>
      t.(noted := s.noted || WroteNote(e), noteKept := s.noteKept || WroteNote(e),
         boundary := s.boundary || (s.compacting && event == Boundary(false)),
         windowSeen := s.windowSeen || (event.ContextUsage? && event.ours && event.maxTokens.Some?
                                        && s.window.Some? && event.maxTokens.value >= s.window.value))
    case Snapped(moment) => t.(snapped := s.snapped || moment.BeforeHandoff?)
    case Sent(line) =>
      t.(asked := s.asked + (if AsksForHandoff(line) then 1 else 0),
         compacting := s.compacting || line.CompactCommand?,
         boundary := s.boundary && !line.CompactCommand?)
    case Recorded(_) => t.(spent := s.spent + 1)
    case RotationOver(_) => AfterRotationOver(t)
    case Decided(outcome) => t.(decided := Some(outcome))
    case Interrupted => t.(interruptions := s.interruptions + 1, noteKept := false)
    case _ => t
  }

  /** The handoff flag is honest: true only if a turn of the rotation wrote the note, and
      true if one did and nothing interrupted the supervisor since. */
  predicate HonestFlag(s: Summary, handoff: bool) {
    (handoff ==> s.noted) && (s.noteKept ==> handoff)
  }

  /** Whether `e` may follow a history that comes to `s`. */
  predicate Allowed(s: Summary, e: Entry) {
    match e
    case Sent(line) =>
      // Nothing is written once the run is decided, nor before the window is checked.
      && s.decided.None? && s.windowSeen
      // A handoff is asked for only with its clean snapshot taken, with an attempt left,
      // and once per attempt or interruption.
      && (AsksForHandoff(line) ==> s.snapped && s.spent < HANDOFF_ATTEMPTS && s.asked <= s.spent + s.interruptions)
      && (line.CompactCommand? ==> s.last == Some(Snapped(AfterHandoff)))
      && (line.CompactedNote? ==> s.last == Some(RotationOver(ByCompaction)))
    case RotationOver(how) =>
      how.ByCompaction? ==> s.compacting && s.boundary && s.last.Some? && s.last.value.HeardLine?
                            && s.last.value.event.Result?
    case Recorded(next) =>
      // The count on disk is the attempts spent, this one included, and stays below the
      // limit until the last attempt records the fresh start.
      (match next
       case Normal => false
       case NextRetry(_, attempts, handoff) => attempts == s.spent + 1 < HANDOFF_ATTEMPTS && HonestFlag(s, handoff)
       case Postponed(attempts, handoff) => attempts == s.spent + 1 < HANDOFF_ATTEMPTS && HonestFlag(s, handoff)
       case Fresh(handoff) => s.spent + 1 == HANDOFF_ATTEMPTS && HonestFlag(s, handoff))
    case NewId(_, resumable, _, kind) =>
      // An id that could have been resumed is given up only with every attempt spent.
      && (resumable ==> s.spent == HANDOFF_ATTEMPTS)
      && (kind.AfterRotation? ==> HonestFlag(s, kind.handoff))
    case Decided(outcome) =>
      s.decided.None? || (s.decided.value.Again? && outcome == Exit(0))
    case ChannelOpened => s.decided.None?
    case Spawned(oneShot, _) => oneShot ==> s.spawns == 0
    case Exited(code, oneShot, stopRequested) =>
      oneShot && !stopRequested ==> code == EXIT_EMERGENCY || code == EXIT_MODEL
    case _ => true
  }

  function Summarize(log: seq<Entry>): Summary {
    if log == [] then Nothing else Extend(Summarize(Init(log)), Last(log))
  }

  predicate Safe(log: seq<Entry>) {
    forall i :: 0 <= i < |log| ==> Allowed(Summarize(log[..i]), log[i])
  }

  /** A history with its summary and the verdict on it, kept as it grows. */
  datatype Book = Book(log: seq<Entry>, sum: Summary, safe: bool)

  predicate WellKept(b: Book) {
    b.sum == Summarize(b.log) && b.safe == Safe(b.log)
  }

  function Append(b: Book, e: Entry): Book {
    Book(b.log + [e], Extend(b.sum, e), b.safe && Allowed(b.sum, e))
  }

  lemma AppendKeeps(b: Book, e: Entry)
    requires WellKept(b)
    ensures WellKept(Append(b, e))
  {
    hide Allowed, Extend;
    var longer := b.log + [e];
    assert Init(longer) == b.log && longer[..|b.log|] == b.log;
    assert forall i :: 0 <= i < |b.log| ==> longer[..i] == b.log[..i] && longer[i] == b.log[i];
  }

  // ------------------------------------------------------------------------------------
  // What the summary says of a history, in terms of positions

  /** No rotation ended from position `i` on. */
  predicate SameRotationSince(log: seq<Entry>, i: nat) {
    forall k :: i <= k < |log| ==> !log[k].RotationOver?
  }

  predicate IsCleanSnapshot(e: Entry) {
    e == Snapped(BeforeHandoff)
  }

  predicate IsRequest(e: Entry) {
    e.Sent? && AsksForHandoff(e.line)
  }

  predicate IsRecord(e: Entry) {
    e.Recorded?
  }

  predicate IsInterruption(e: Entry) {
    e.Interrupted?
  }

  /** How many entries of the current rotation satisfy `p`. */
  function CountInRotation(log: seq<Entry>, p: Entry -> bool): nat {
    if log == [] || Last(log).RotationOver? then 0
    else CountInRotation(Init(log), p) + (if p(Last(log)) then 1 else 0)
  }

  lemma {:induction false} CountedMeans(log: seq<Entry>, p: Entry -> bool)
    ensures CountInRotation(log, p) > 0 <==> exists i :: 0 <= i < |log| && p(log[i]) && SameRotationSince(log, i)
  {
    if log != [] && !Last(log).RotationOver? {
      var init := Init(log);
      CountedMeans(init, p);
      forall i | 0 <= i < |init|
        ensures SameRotationSince(log, i) <==> SameRotationSince(init, i)
      {
        assert forall k :: i <= k < |log| ==> k == |init| || init[k] == log[k];
      }
      assert forall i :: 0 <= i < |init| ==> init[i] == log[i];
      if p(Last(log)) {
        assert SameRotationSince(log, |init|);
      }
    } else if log != [] {
      forall i | 0 <= i < |log| ensures !SameRotationSince(log, i) {
        assert log[|log| - 1].RotationOver?;
      }
    }
  }

  lemma ExtendsRotation(s: Summary, e: Entry)
    ensures var t := Extend(s, e);
            if e.RotationOver? then !t.snapped && !t.noted && t.spent == 0 && t.asked == 0 && t.interruptions == 0
            else
              && t.snapped == (s.snapped || IsCleanSnapshot(e))
              && t.noted == (s.noted || WroteNote(e))
              && t.spent == s.spent + (if IsRecord(e) then 1 else 0)
              && t.asked == s.asked + (if IsRequest(e) then 1 else 0)
              && t.interruptions == s.interruptions + (if IsInterruption(e) then 1 else 0)
  {
  }

  /** The summary's account of the current rotation, entry by entry. */
  lemma {:induction false} RotationFieldsMean(log: seq<Entry>)
    ensures var s := Summarize(log);
            && s.snapped == (CountInRotation(log, IsCleanSnapshot) > 0)
            && s.noted == (CountInRotation(log, WroteNote) > 0)
            && s.spent == CountInRotation(log, IsRecord)
            && s.asked == CountInRotation(log, IsRequest)
            && s.interruptions == CountInRotation(log, IsInterruption)
  {
    if log != [] {
      RotationFieldsMean(Init(log));
      ExtendsRotation(Summarize(Init(log)), Last(log));
    }
  }

  /** `/compact` went out at `c`, in the current run of claude, and not again since. */
  predicate CompactSentAt(log: seq<Entry>, c: int) {
    && 0 <= c < |log| && log[c] == Sent(CompactCommand)
    && forall k :: c < k < |log| ==> !log[k].Spawned? && log[k] != Sent(CompactCommand)
  }

  predicate HeardBoundaryAfter(log: seq<Entry>, c: int) {
    exists b :: 0 <= c < b < |log| && log[b].HeardLine? && log[b].event == Boundary(false)
  }

  lemma ExtendsCompaction(s: Summary, e: Entry)
    ensures var t := Extend(s, e);
            && (t.compacting <==> e == Sent(CompactCommand) || (s.compacting && !e.Spawned?))
            && (t.boundary ==> e != Sent(CompactCommand)
                               && (s.boundary || (e.HeardLine? && e.event == Boundary(false))))
  {
  }

  lemma {:induction false} CompactingMeans(log: seq<Entry>)
    requires Summarize(log).compacting
    ensures exists c :: CompactSentAt(log, c) && (Summarize(log).boundary ==> HeardBoundaryAfter(log, c))
  {
    var init, e := Init(log), Last(log);
    ExtendsCompaction(Summarize(init), e);
    if e == Sent(CompactCommand) {
      assert CompactSentAt(log, |log| - 1);
    } else {
      CompactingMeans(init);
      var c :| CompactSentAt(init, c) && (Summarize(init).boundary ==> HeardBoundaryAfter(init, c));
      assert CompactSentAt(log, c);
      if Summarize(init).boundary {
        var b :| c < b < |init| && init[b].HeardLine? && init[b].event == Boundary(false);
        assert log[b] == init[b];
      }
    }
  }

  lemma {:induction false} LastMeans(log: seq<Entry>)
    requires log != []
    ensures Summarize(log).last == Some(Last(log))
  {
    hide Extend;
    ExtendsLast(Summarize(Init(log)), Last(log));
  }

  lemma ExtendsLast(s: Summary, e: Entry)
    ensures Extend(s, e).last == Some(e)
  {
    hide WroteNote, AsksForHandoff;
  }

  // ------------------------------------------------------------------------------------
  // What safety promises, position by position

  /** No line asks for the handoff before its rotation's clean snapshot. */
  lemma SnapshotBeforeHandoff(log: seq<Entry>, i: nat)
    requires Safe(log) && i < |log| && log[i].Sent? && AsksForHandoff(log[i].line)
    ensures exists j :: 0 <= j < i && log[j] == Snapped(BeforeHandoff) && SameRotationSince(log[..i], j)
  {
    RotationFieldsMean(log[..i]);
    CountedMeans(log[..i], IsCleanSnapshot);
  }

  /** One rotation asks for the handoff at most once per attempt, and once more for every
      time it was interrupted from outside. */
  lemma HandoffsBounded(log: seq<Entry>, i: nat)
    requires Safe(log) && i < |log| && log[i].Sent? && AsksForHandoff(log[i].line)
    ensures CountInRotation(log[..i + 1], IsRequest)
            <= HANDOFF_ATTEMPTS + CountInRotation(log[..i + 1], IsInterruption)
  {
    RotationFieldsMean(log[..i]);
    assert Init(log[..i + 1]) == log[..i];
  }

  /** A resumable session id is replaced only after all the attempts of its rotation. */
  lemma FreshIdIsTheLastResort(log: seq<Entry>, i: nat)
    requires Safe(log) && i < |log| && log[i].NewId? && log[i].resumable
    ensures CountInRotation(log[..i], IsRecord) == HANDOFF_ATTEMPTS
  {
    RotationFieldsMean(log[..i]);
  }

  /** A fresh session is told that the note is the rotated session's only if a turn of that
      rotation wrote it. */
  lemma HandoffFlagIsEarned(log: seq<Entry>, i: nat)
    requires Safe(log) && i < |log| && log[i].NewId? && log[i].kind == AfterRotation(true)
    ensures exists j :: 0 <= j < i && WroteNote(log[j]) && SameRotationSince(log[..i], j)
  {
    RotationFieldsMean(log[..i]);
    CountedMeans(log[..i], WroteNote);
  }

  /** And it is told so if a turn wrote it and nothing interrupted the supervisor since. */
  lemma HandoffFlagIsGiven(log: seq<Entry>, i: nat, j: nat)
    requires Safe(log) && j < i < |log| && log[i].NewId? && log[i].kind.AfterRotation?
    requires WroteNote(log[j]) && SameRotationSince(log[..i], j)
    requires forall k :: j < k < i ==> !log[k].Interrupted?
    ensures log[i].kind.handoff
  {
    NoteKeptSince(log[..i], j);
  }

  lemma ExtendsNote(s: Summary, e: Entry)
    ensures !e.RotationOver? && !e.Interrupted? ==> Extend(s, e).noteKept == (s.noteKept || WroteNote(e))
  {
  }

  lemma {:induction false} NoteKeptSince(log: seq<Entry>, j: nat)
    requires j < |log| && WroteNote(log[j]) && SameRotationSince(log, j)
    requires forall k :: j < k < |log| ==> !log[k].Interrupted?
    ensures Summarize(log).noteKept
  {
    ExtendsNote(Summarize(Init(log)), Last(log));
    if j < |log| - 1 {
      NoteKeptSince(Init(log), j);
    }
  }

  /** A rotation ends as compacted only on a result heard after a boundary that was not
      automatic and that came after the last `/compact`, which itself directly followed an
      after-handoff snapshot. */
  lemma CompactionIsReal(log: seq<Entry>, i: nat)
    requires Safe(log) && i < |log| && log[i] == RotationOver(ByCompaction)
    ensures i > 0 && log[i - 1].HeardLine? && log[i - 1].event.Result?
    ensures exists c, b :: 0 < c < b < i && log[c - 1] == Snapped(AfterHandoff) && CompactSentAt(log[..i], c)
                           && log[b].HeardLine? && log[b].event == Boundary(false)
  {
    hide Extend, Safe, Allowed, Summarize;
    var before := log[..i];
    CompactedMeans(log, i);
    LastMeans(before);
    CompactingMeans(before);
    var c :| CompactSentAt(before, c) && HeardBoundaryAfter(before, c);
    var b :| c < b < |before| && before[b].HeardLine? && before[b].event == Boundary(false);
    assert log[b] == before[b] && log[c] == before[c];
    CompactFollowsSnapshot(log, c);
  }

  lemma CompactedMeans(log: seq<Entry>, i: nat)
    requires Safe(log) && i < |log| && log[i] == RotationOver(ByCompaction)
    ensures var s := Summarize(log[..i]);
            i > 0 && s.compacting && s.boundary && s.last.Some? && s.last.value.HeardLine? && s.last.value.event.Result?
  {
    hide Extend;
  }

  lemma CompactFollowsSnapshot(log: seq<Entry>, c: nat)
    requires Safe(log) && c < |log| && log[c] == Sent(CompactCommand)
    ensures c > 0 && log[c - 1] == Snapped(AfterHandoff)
  {
    if c > 0 {
      LastMeans(log[..c]);
    }
  }

  lemma ExtendsDecision(s: Summary, e: Entry)
    ensures !e.Spawned? ==> Extend(s, e).decided == if e.Decided? then Some(e.outcome) else s.decided
  {
  }

  lemma {:induction false} DecidedMeans(log: seq<Entry>, j: nat)
    requires j < |log| && log[j].Decided? && forall k :: j < k < |log| ==> !log[k].Spawned?
    ensures Summarize(log).decided.Some?
    ensures (forall k :: j < k < |log| ==> !log[k].Decided?) ==> Summarize(log).decided == Some(log[j].outcome)
  {
    ExtendsDecision(Summarize(Init(log)), Last(log));
    if j < |log| - 1 {
      DecidedMeans(Init(log), j);
    }
  }

  /** Once a run is decided, nothing more is written to claude and the channel stays closed,
      and only a requested stop overrules a restart. */
  lemma DecidedIsFinal(log: seq<Entry>, j: nat, i: nat)
    requires Safe(log) && j < i < |log| && log[j].Decided?
    requires forall k :: j < k < i ==> !log[k].Spawned?
    ensures !log[i].Sent? && !log[i].ChannelOpened?
    ensures log[i].Decided? ==> log[i].outcome == Exit(0)
    ensures log[i].Decided? && (forall k :: j < k < i ==> !log[k].Decided?) ==> log[j].outcome.Again?
  {
    hide Extend, Summarize;
    DecidedMeans(log[..i], j);
  }

  lemma ExtendsWindow(s: Summary, e: Entry)
    ensures var t := Extend(s, e);
            if e.Spawned? then t.window == e.window && t.windowSeen == e.window.None?
            else t.window == s.window
                 && (t.windowSeen ==> s.windowSeen || (s.window.Some? && AnswersWindow(e, s.window.value)))
  {
    hide WroteNote, AsksForHandoff;
  }

  /** Claude's answer to the window check is at least the window. */
  predicate AnswersWindow(e: Entry, window: nat) {
    e.HeardLine? && e.event.ContextUsage? && e.event.ours && e.event.maxTokens.Some? && e.event.maxTokens.value >= window
  }

  /** The current run of claude was started at `c`. */
  predicate RunStartedAt(log: seq<Entry>, c: nat) {
    c < |log| && log[c].Spawned? && forall k :: c < k < |log| ==> !log[k].Spawned?
  }

  lemma {:induction false} WindowSeenMeans(log: seq<Entry>) returns (c: nat, a: nat)
    requires Summarize(log).windowSeen
    ensures RunStartedAt(log, c) && Summarize(log).window == log[c].window
    ensures log[c].window.Some? ==> c < a < |log| && AnswersWindow(log[a], log[c].window.value)
  {
    hide Extend, AnswersWindow;
    var init, e := Init(log), Last(log);
    ExtendsWindow(Summarize(init), e);
    if e.Spawned? {
      c, a := |log| - 1, 0;
    } else if Summarize(init).windowSeen {
      c, a := WindowSeenMeans(init);
    } else {
      c := WindowMeans(init);
      a := |log| - 1;
    }
  }

  lemma {:induction false} WindowMeans(log: seq<Entry>) returns (c: nat)
    requires Summarize(log).window.Some?
    ensures RunStartedAt(log, c) && Summarize(log).window == log[c].window
  {
    hide Extend, AnswersWindow;
    ExtendsWindow(Summarize(Init(log)), Last(log));
    if Last(log).Spawned? {
      c := |log| - 1;
    } else {
      c := WindowMeans(Init(log));
    }
  }

  /** With a window configured, no line goes to a run of claude before it has answered with at
      least that window. */
  lemma WindowBeforeAnyTurn(log: seq<Entry>, i: nat) returns (c: nat, a: nat)
    requires Safe(log) && i < |log| && log[i].Sent?
    ensures RunStartedAt(log[..i], c)
    ensures log[c].window.Some? ==> c < a < i && AnswersWindow(log[a], log[c].window.value)
  {
    hide Extend, AnswersWindow;
    c, a := WindowSeenMeans(log[..i]);
  }

  lemma ExtendsSpawns(s: Summary, e: Entry)
    ensures Extend(s, e).spawns == if e.Booted? then 0 else s.spawns + if e.Spawned? then 1 else 0
  {
    hide WroteNote, AsksForHandoff;
  }

  lemma {:induction false} SpawnsSince(log: seq<Entry>, j: nat)
    requires j < |log| && log[j].Spawned? && forall k :: j < k < |log| ==> !log[k].Booted?
    ensures Summarize(log).spawns > 0
  {
    hide Extend;
    ExtendsSpawns(Summarize(Init(log)), Last(log));
    if j < |log| - 1 {
      SpawnsSince(Init(log), j);
    }
  }

  /** In one-shot mode a process starts claude once. */
  lemma OneShotRunsOnce(log: seq<Entry>, i: nat, j: nat)
    requires Safe(log) && j < i < |log| && log[j].Spawned? && log[i].Spawned? && log[i].oneShot
    ensures exists k :: j < k < i && log[k].Booted?
  {
    hide Extend;
    if forall k :: j < k < i ==> !log[k].Booted? {
      SpawnsSince(log[..i], j);
    }
  }

  /** And the process leaves with one of the two codes of an emergency, unless a stop was requested. */
  lemma OneShotExitCodes(log: seq<Entry>, i: nat)
    requires Safe(log) && i < |log| && log[i].Exited? && log[i].oneShot && !log[i].stopRequested
    ensures log[i].code == EXIT_EMERGENCY || log[i].code == EXIT_MODEL
  {
    hide Extend;
  }
}
