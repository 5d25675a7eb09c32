/**
  What the supervisor promises of every run: from any disk without a record of a rotation, for
  every sequence of inputs and every position of the history it leads to. Each promise holds of
  all safe histories, and every run has one.
 */
module SupervisorPromises {
  import opened Prelude
  import opened Rotation
  import opened Supervisor
  import opened SupervisorRuns
  import opened History

  /** The history of a run. */
  function LogOf(s: State, inputs: seq<Input>): seq<Entry> {
    Execute(s, inputs).book.log
  }

  /** No line asks for the handoff unless a clean snapshot was taken earlier in its rotation. */
  lemma EveryHandoffHasItsSnapshot(s: State, inputs: seq<Input>, i: nat)
    requires Initially(s) && i < |LogOf(s, inputs)| && IsRequest(LogOf(s, inputs)[i])
    ensures exists j :: 0 <= j < i && LogOf(s, inputs)[j] == Snapped(BeforeHandoff) && SameRotationSince(LogOf(s, inputs)[..i], j)
  {
    hide Safe, Execute, Initially, SameRotationSince;
    EveryRunIsSafe(s, inputs);
    SnapshotBeforeHandoff(LogOf(s, inputs), i);
  }

  /** A rotation asks for the handoff once per attempt, and once more per interruption. */
  lemma EveryRotationAsksSeldom(s: State, inputs: seq<Input>, i: nat)
    requires Initially(s) && i < |LogOf(s, inputs)| && IsRequest(LogOf(s, inputs)[i])
    ensures var before := LogOf(s, inputs)[..i + 1];
            CountInRotation(before, IsRequest) <= HANDOFF_ATTEMPTS + CountInRotation(before, IsInterruption)
  {
    hide Safe, Execute, Initially, CountInRotation;
    EveryRunIsSafe(s, inputs);
    HandoffsBounded(LogOf(s, inputs), i);
  }

  /** An id that could be resumed is replaced only after both attempts were recorded as spent. */
  lemma EveryFreshIdIsTheLastResort(s: State, inputs: seq<Input>, i: nat)
    requires Initially(s) && i < |LogOf(s, inputs)| && LogOf(s, inputs)[i].NewId? && LogOf(s, inputs)[i].resumable
    ensures CountInRotation(LogOf(s, inputs)[..i], IsRecord) == HANDOFF_ATTEMPTS
  {
    hide Safe, Execute, Initially, CountInRotation;
    EveryRunIsSafe(s, inputs);
    FreshIdIsTheLastResort(LogOf(s, inputs), i);
  }

  /** A fresh session is told that there is a note only if a turn of that rotation wrote it. */
  lemma EveryHandoffFlagIsEarned(s: State, inputs: seq<Input>, i: nat)
    requires Initially(s) && i < |LogOf(s, inputs)|
    requires LogOf(s, inputs)[i].NewId? && LogOf(s, inputs)[i].kind == AfterRotation(true)
    ensures exists j :: 0 <= j < i && WroteNote(LogOf(s, inputs)[j]) && SameRotationSince(LogOf(s, inputs)[..i], j)
  {
    hide Safe, Execute, Initially, SameRotationSince, WroteNote;
    EveryRunIsSafe(s, inputs);
    HandoffFlagIsEarned(LogOf(s, inputs), i);
  }

  /** And is told so whenever a turn wrote it and nothing interrupted the supervisor since. */
  lemma EveryHandoffFlagIsGiven(s: State, inputs: seq<Input>, i: nat, j: nat)
    requires Initially(s) && j < i < |LogOf(s, inputs)|
    requires LogOf(s, inputs)[i].NewId? && LogOf(s, inputs)[i].kind.AfterRotation?
    requires WroteNote(LogOf(s, inputs)[j]) && SameRotationSince(LogOf(s, inputs)[..i], j)
    requires forall k :: j < k < i ==> !LogOf(s, inputs)[k].Interrupted?
    ensures LogOf(s, inputs)[i].kind.handoff
  {
    hide Safe, Execute, Initially, SameRotationSince, WroteNote;
    EveryRunIsSafe(s, inputs);
    HandoffFlagIsGiven(LogOf(s, inputs), i, j);
  }

  /** A rotation is over by its compaction only on a result after a boundary that was not automatic
      and came after the last `/compact`; and every `/compact` directly follows its snapshot. */
  lemma EveryCompactionIsReal(s: State, inputs: seq<Input>, i: nat)
    requires Initially(s) && i < |LogOf(s, inputs)|
    ensures var log := LogOf(s, inputs);
            && (log[i] == Sent(CompactCommand) ==> i > 0 && log[i - 1] == Snapped(AfterHandoff))
            && (log[i] == RotationOver(ByCompaction) ==>
                  && i > 0 && log[i - 1].HeardLine? && log[i - 1].event.Result?
                  && exists c, b :: 0 < c < b < i && log[c - 1] == Snapped(AfterHandoff) && CompactSentAt(log[..i], c)
                                    && log[b].HeardLine? && log[b].event == Boundary(false))
  {
    hide Safe, Execute, Initially, CompactSentAt;
    var log := LogOf(s, inputs);
    EveryRunIsSafe(s, inputs);
    if log[i] == Sent(CompactCommand) {
      CompactFollowsSnapshot(log, i);
    }
    if log[i] == RotationOver(ByCompaction) {
      CompactionIsReal(log, i);
    }
  }

  /** Once a run of claude is decided, nothing more is written to it, its channel stays closed, and
      only a requested stop overrules the decision, and only one to start again. */
  lemma EveryDecisionIsFinal(s: State, inputs: seq<Input>, j: nat, i: nat)
    requires Initially(s) && j < i < |LogOf(s, inputs)| && LogOf(s, inputs)[j].Decided?
    requires forall k :: j < k < i ==> !LogOf(s, inputs)[k].Spawned?
    ensures var log := LogOf(s, inputs);
            && !log[i].Sent? && !log[i].ChannelOpened?
            && (log[i].Decided? ==> log[i].outcome == Exit(0))
            && (log[i].Decided? && (forall k :: j < k < i ==> !log[k].Decided?) ==> log[j].outcome.Again?)
  {
    hide Safe, Execute, Initially;
    EveryRunIsSafe(s, inputs);
    DecidedIsFinal(LogOf(s, inputs), j, i);
  }

  /** With a window configured, no line goes to a run of claude before an answer of at least that window. */
  lemma EveryTurnWaitsForTheWindow(s: State, inputs: seq<Input>, i: nat)
    requires Initially(s) && i < |LogOf(s, inputs)| && LogOf(s, inputs)[i].Sent?
    ensures var log := LogOf(s, inputs);
            exists c: nat :: RunStartedAt(log[..i], c)
                             && (log[c].window.Some? ==> exists a :: c < a < i && AnswersWindow(log[a], log[c].window.value))
  {
    hide Safe, Execute, Initially, AnswersWindow;
    EveryRunIsSafe(s, inputs);
    var c, a := WindowBeforeAnyTurn(LogOf(s, inputs), i);
    assert RunStartedAt(LogOf(s, inputs)[..i], c);
  }

  /** In one-shot mode a process starts claude once, and without a requested stop leaves with 80 or 79. */
  lemma EveryOneShotIsOne(s: State, inputs: seq<Input>, i: nat)
    requires Initially(s) && i < |LogOf(s, inputs)|
    ensures var log := LogOf(s, inputs);
            && (log[i].Spawned? && log[i].oneShot ==>
                  forall j :: 0 <= j < i && log[j].Spawned? ==> exists k :: j < k < i && log[k].Booted?)
            && (log[i].Exited? && log[i].oneShot && !log[i].stopRequested ==>
                  log[i].code == EXIT_EMERGENCY || log[i].code == EXIT_MODEL)
  {
    hide Safe, Execute, Initially;
    var log := LogOf(s, inputs);
    EveryRunIsSafe(s, inputs);
    if log[i].Exited? && log[i].oneShot && !log[i].stopRequested {
      OneShotExitCodes(log, i);
    }
    if log[i].Spawned? && log[i].oneShot {
      forall j | 0 <= j < i && log[j].Spawned? ensures exists k :: j < k < i && log[k].Booted? {
        OneShotRunsOnce(log, i, j);
      }
    }
  }
}
