/**
  The typing tasks of the daemon (crates/siltad/src/daemon.rs): one background task per room
  keeps the indicator alive; starting, stopping, a session's end, the cap and a task's own
  clean-up interleave freely. Each step is one section of the lock.
 */
module Typing {
  import opened Prelude

  datatype Phase = Showing | Ending | Gone

  /**
    A task, with the cancellation token and the watch it shares with its entry. It is `Ending`
    between leaving its loop and taking the lock to clean up.
   */
  datatype Task = Task(session: string, room: string, cancelled: bool, watch: bool, phase: Phase)

  /** The registered task of each room, by generation, and every task ever started. */
  datatype State = State(entries: map<string, nat>, generation: nat, tasks: map<nat, Task>, silences: seq<nat>)

  const Fresh := State(map[], 0, map[], [])

  datatype Input =
    | Start(session: string, room: string, watch: bool)
    | Stop(room: string)
    | StopSession(session: string)
    | SeeCancel(task: nat)
    | Cap(task: nat)
    | Finish(task: nat)

  function Cancelled(t: Task): Task {
    t.(cancelled := true)
  }

  predicate WellFormed(s: State) {
    && (forall g :: g in s.tasks ==> 1 <= g <= s.generation)
    && (forall room :: room in s.entries ==> s.entries[room] in s.tasks)
  }

  /** The rooms registered for a session. */
  function RoomsOf(s: State, session: string): set<string>
    requires WellFormed(s)
  {
    set room | room in s.entries && s.tasks[s.entries[room]].session == session
  }

  /** The entries of some rooms are removed and their tasks cancelled. */
  function Dropped(s: State, rooms: set<string>): State
    requires WellFormed(s)
  {
    s.(entries := s.entries - rooms,
       tasks := map g | g in s.tasks ::
         if exists room :: room in rooms && room in s.entries && s.entries[room] == g then Cancelled(s.tasks[g]) else s.tasks[g])
  }

  function Step(s: State, input: Input): State
    requires WellFormed(s)
  {
    match input
    case Start(session, room, watch) =>
      if room in s.entries then
        var g := s.entries[room];
        if watch then s else s.(tasks := s.tasks[g := s.tasks[g].(watch := false)])
      else
        var g := s.generation + 1;
        s.(generation := g, entries := s.entries[room := g],
           tasks := s.tasks[g := Task(session, room, false, watch, Showing)])
    case Stop(room) => Dropped(s, {room})
    case StopSession(session) => Dropped(s, RoomsOf(s, session))
    case SeeCancel(g) =>
      if g in s.tasks && s.tasks[g].phase.Showing? && s.tasks[g].cancelled
      then s.(tasks := s.tasks[g := s.tasks[g].(phase := Ending)]) else s
    case Cap(g) =>
      if g in s.tasks && s.tasks[g].phase.Showing?
      then s.(tasks := s.tasks[g := s.tasks[g].(phase := Ending)],
              silences := if s.tasks[g].watch then s.silences + [g] else s.silences)
      else s
    case Finish(g) =>
      if g in s.tasks && s.tasks[g].phase.Ending? then
        var room := s.tasks[g].room;
        s.(tasks := s.tasks[g := s.tasks[g].(phase := Gone)],
           entries := if room in s.entries && s.entries[room] == g then s.entries - {room} else s.entries)
      else s
  }

  // ------------------------------------------------------------------------------------
  // The invariant

  predicate Live(t: Task) {
    !t.cancelled && !t.phase.Gone?
  }

  /** Registered is exactly what is neither cancelled nor finished. */
  predicate RegisteredIsLive(s: State)
    requires WellFormed(s)
  {
    && (forall room :: room in s.entries ==>
          s.tasks[s.entries[room]].room == room && Live(s.tasks[s.entries[room]]))
    && (forall g :: g in s.tasks && Live(s.tasks[g]) ==>
          s.tasks[g].room in s.entries && s.entries[s.tasks[g].room] == g)
  }

  /** A silence is reported for a task that has left its loop, and once. */
  predicate ReportedOnce(s: State)
    requires WellFormed(s)
  {
    && (forall i :: 0 <= i < |s.silences| ==> s.silences[i] in s.tasks && !s.tasks[s.silences[i]].phase.Showing?)
    && (forall i, j :: 0 <= i < j < |s.silences| ==> s.silences[i] != s.silences[j])
  }

  predicate Inv(s: State) {
    WellFormed(s) && RegisteredIsLive(s) && ReportedOnce(s)
  }

  lemma DroppedKeeps(s: State, rooms: set<string>)
    requires Inv(s)
    ensures Inv(Dropped(s, rooms))
  {
    var t := Dropped(s, rooms);
    assert t.tasks.Keys == s.tasks.Keys;
    forall g | g in t.tasks && Live(t.tasks[g])
      ensures t.tasks[g].room in t.entries && t.entries[t.tasks[g].room] == g
    {
      assert Live(s.tasks[g]);
      assert s.entries[s.tasks[g].room] == g;
    }
  }

  lemma StartKeeps(s: State, session: string, room: string, watch: bool)
    requires Inv(s)
    ensures Inv(Step(s, Start(session, room, watch)))
  {
  }

  lemma EndKeeps(s: State, g: nat)
    requires Inv(s)
    ensures Inv(Step(s, SeeCancel(g))) && Inv(Step(s, Cap(g)))
  {
  }

  lemma FinishKeeps(s: State, g: nat)
    requires Inv(s)
    ensures Inv(Step(s, Finish(g)))
  {
  }

  lemma StepKeeps(s: State, input: Input)
    requires Inv(s)
    ensures Inv(Step(s, input))
  {
    hide RegisteredIsLive, ReportedOnce;
    match input {
      case Stop(room) => DroppedKeeps(s, {room});
      case StopSession(session) => DroppedKeeps(s, RoomsOf(s, session));
      case Start(session, room, watch) => StartKeeps(s, session, room, watch);
      case SeeCancel(g) => EndKeeps(s, g);
      case Cap(g) => EndKeeps(s, g);
      case Finish(g) => FinishKeeps(s, g);
    }
  }

  // ------------------------------------------------------------------------------------
  // Whole runs

  /** The state after some steps from the start of the daemon. */
  ghost function After(inputs: seq<Input>): (s: State)
    ensures Inv(s)
  {
    if inputs == [] then Fresh else
    StepKeeps(After(Init(inputs)), Last(inputs));
    Step(After(Init(inputs)), Last(inputs))
  }

  /**
    After any interleaving: a room's entry belongs to an unfinished, uncancelled task of that
    very room and generation, every such task is registered, so no room has two of them, and no
    task is reported silent twice.
   */
  lemma AlwaysOneLiveTask(inputs: seq<Input>, g: nat, h: nat)
    ensures var s := After(inputs);
            && (forall room :: room in s.entries ==>
                  s.entries[room] in s.tasks && s.tasks[s.entries[room]].room == room && Live(s.tasks[s.entries[room]]))
            && (g in s.tasks && h in s.tasks && Live(s.tasks[g]) && Live(s.tasks[h]) && s.tasks[g].room == s.tasks[h].room
                ==> g == h)
            && multiset(s.silences)[g] <= 1
  {
    hide Step;
    var s := After(inputs);
    OnceInMultiset(s.silences, g);
  }

  lemma {:induction false} OnceInMultiset(items: seq<nat>, g: nat)
    requires forall i, j :: 0 <= i < j < |items| ==> items[i] != items[j]
    ensures multiset(items)[g] <= 1
  {
    if items != [] {
      OnceInMultiset(Init(items), g);
      assert items == Init(items) + [Last(items)];
      if Last(items) == g {
        assert g !in Init(items);
      }
    }
  }

  /** A task that finishes removes no entry but its own. */
  lemma FinishSparesOthers(inputs: seq<Input>, g: nat)
    ensures var s, t := After(inputs), Step(After(inputs), Finish(g));
            forall room :: room in s.entries && s.entries[room] != g ==> room in t.entries && t.entries[room] == s.entries[room]
  {
  }

  lemma GoneStep(s: State, input: Input, g: nat)
    requires Inv(s) && g in s.tasks && s.tasks[g].phase.Gone?
    ensures g in Step(s, input).tasks && Step(s, input).tasks[g].phase.Gone?
  {
    hide RegisteredIsLive, ReportedOnce;
  }

  /** When a task has finished, nothing is registered under its generation ever again. */
  lemma {:induction false} GoneForGood(inputs: seq<Input>, more: seq<Input>, g: nat)
    requires g in After(inputs).tasks && After(inputs).tasks[g].phase.Gone?
    ensures var s := After(inputs + more);
            g in s.tasks && s.tasks[g].phase.Gone? && forall room :: room in s.entries ==> s.entries[room] != g
  {
    hide Step;
    if more == [] {
      assert inputs + more == inputs;
    } else {
      GoneForGood(inputs, Init(more), g);
      assert Init(inputs + more) == inputs + Init(more) && Last(inputs + more) == Last(more);
      GoneStep(After(inputs + Init(more)), Last(more), g);
    }
  }

  /** The end of a session leaves none of its entries and cancels each of their tasks. */
  lemma SessionEndLeavesNone(inputs: seq<Input>, session: string)
    ensures var s, t := After(inputs), Step(After(inputs), StopSession(session));
            && (forall g :: g in t.tasks && t.tasks[g].session == session ==> !Live(t.tasks[g]))
            && (forall room :: room in t.entries ==> t.tasks[t.entries[room]].session != session)
            && (forall room :: room in s.entries && s.tasks[s.entries[room]].session != session ==>
                  room in t.entries && t.entries[room] == s.entries[room] && t.tasks[s.entries[room]] == s.tasks[s.entries[room]])
  {
    hide ReportedOnce;
    var s := After(inputs);
    var t := Step(s, StopSession(session));
    StepKeeps(s, StopSession(session));
  }

  // ------------------------------------------------------------------------------------
  // Deliveries and reported silences

  /** The state before the step at `n`. */
  ghost function Before(inputs: seq<Input>, n: nat): (s: State)
    requires n <= |inputs|
    ensures Inv(s)
  {
    After(inputs[..n])
  }

  lemma BeforeNext(inputs: seq<Input>, n: nat)
    requires n < |inputs|
    ensures Before(inputs, n + 1) == Step(Before(inputs, n), inputs[n])
  {
    hide Step, Inv;
    assert Init(inputs[..n + 1]) == inputs[..n];
  }

  /** The room has a task that shows the indicator and would report silence at its cap. */
  predicate Watched(s: State, room: string)
    requires WellFormed(s)
  {
    room in s.entries && s.tasks[s.entries[room]].phase.Showing? && s.tasks[s.entries[room]].watch
  }

  /**
    After any interleaving, a delivery is watched if and only if its room had no task, or one that
    was watched and had not reached its cap.
   */
  lemma DeliveryWatchedExactly(inputs: seq<Input>, session: string, room: string)
    ensures var s := After(inputs);
            Watched(Step(s, Start(session, room, true)), room) <==> room !in s.entries || Watched(s, room)
  {
    hide RegisteredIsLive, ReportedOnce;
    StepKeeps(After(inputs), Start(session, room, true));
  }

  /** The step at `i` started the task of this generation, to be watched. */
  ghost predicate StartedWatched(inputs: seq<Input>, i: nat, g: nat) {
    && i < |inputs| && inputs[i].Start? && inputs[i].watch
    && inputs[i].room !in Before(inputs, i).entries && g == Before(inputs, i).generation + 1
  }

  /** The step at `k` shows something of the session in the room of this task. */
  ghost predicate Shows(inputs: seq<Input>, k: nat, g: nat) {
    && k < |inputs| && inputs[k].Start? && !inputs[k].watch
    && inputs[k].room in Before(inputs, k).entries && Before(inputs, k).entries[inputs[k].room] == g
  }

  /** The task is cancelled at the step at `k`, by its room or by its session. */
  ghost predicate Stops(inputs: seq<Input>, k: nat, g: nat) {
    && k < |inputs| && (inputs[k].Stop? || inputs[k].StopSession?)
    && exists room :: room in Dropping(Before(inputs, k), inputs[k]) && room in Before(inputs, k).entries
                      && Before(inputs, k).entries[room] == g
  }

  function Dropping(s: State, input: Input): set<string>
    requires WellFormed(s) && (input.Stop? || input.StopSession?)
  {
    if input.Stop? then {input.room} else RoomsOf(s, input.session)
  }

  /** The task leaves its loop at the step at `k` because it was cancelled. */
  ghost predicate SeesCancel(inputs: seq<Input>, k: nat, g: nat) {
    && k < |inputs| && inputs[k] == SeeCancel(g)
    && g in Before(inputs, k).tasks && Before(inputs, k).tasks[g].cancelled
  }

  /** How one step changes a task that is there. */
  lemma TaskStep(s: State, input: Input, g: nat)
    requires Inv(s) && g in s.tasks
    ensures var t := Step(s, input);
            && g in t.tasks
            && t.tasks[g].watch == (s.tasks[g].watch && !(input.Start? && !input.watch && input.room in s.entries && s.entries[input.room] == g))
            && (t.tasks[g].phase.Showing? <==>
                s.tasks[g].phase.Showing? && input != Cap(g) && !(input == SeeCancel(g) && s.tasks[g].cancelled))
            && (g in t.silences <==> g in s.silences || (input == Cap(g) && s.tasks[g].phase.Showing? && s.tasks[g].watch))
  {
    hide RegisteredIsLive, ReportedOnce, RoomsOf;
  }

  /** And which tasks a step brings about. */
  lemma NewTaskStep(s: State, input: Input, g: nat)
    requires Inv(s) && g !in s.tasks
    ensures var t := Step(s, input);
            && (g in t.tasks <==> input.Start? && input.room !in s.entries && g == s.generation + 1)
            && (g in t.tasks ==> t.tasks[g] == Task(input.session, input.room, false, input.watch, Showing))
            && g !in t.silences && g !in s.silences
  {
    hide RegisteredIsLive, RoomsOf;
  }

  /** From the start of a task on, up to the step at `n`. */
  ghost predicate Silent(inputs: seq<Input>, i: nat, n: nat, g: nat) {
    forall k :: i < k < n ==> !Shows(inputs, k, g)
  }

  ghost predicate StillShowing(inputs: seq<Input>, i: nat, n: nat, g: nat)
    requires n <= |inputs|
  {
    forall k :: i < k < n ==> inputs[k] != Cap(g) && !SeesCancel(inputs, k, g)
  }

  /** The step at `j` reports silence for the task that the step at `i` started. */
  ghost predicate Reports(inputs: seq<Input>, i: nat, j: nat, g: nat) {
    && i < j < |inputs| && StartedWatched(inputs, i, g) && inputs[j] == Cap(g)
    && Silent(inputs, i, j, g) && StillShowing(inputs, i, j, g)
  }

  /** The step that started a task. */
  ghost predicate StartedAt(inputs: seq<Input>, i: nat, g: nat) {
    && i < |inputs| && inputs[i].Start? && inputs[i].room !in Before(inputs, i).entries
    && g == Before(inputs, i).generation + 1
  }

  lemma {:induction false} StartOf(inputs: seq<Input>, n: nat, g: nat) returns (i: nat)
    requires n <= |inputs| && g in Before(inputs, n).tasks
    ensures i < n && StartedAt(inputs, i, g)
    ensures Before(inputs, n).tasks[g].watch <==> inputs[i].watch && Silent(inputs, i, n, g)
    ensures Before(inputs, n).tasks[g].phase.Showing? <==> StillShowing(inputs, i, n, g)
  {
    hide Step, Inv;
    assert n > 0 by { NothingStarted(inputs, g); }
    var s, input := Before(inputs, n - 1), inputs[n - 1];
    BeforeNext(inputs, n - 1);
    if g in s.tasks {
      TaskStep(s, input, g);
      i := StartOf(inputs, n - 1, g);
      SilentNext(inputs, i, n - 1, g);
    } else {
      NewTaskStep(s, input, g);
      i := n - 1;
    }
  }

  lemma NothingStarted(inputs: seq<Input>, g: nat)
    ensures g !in Before(inputs, 0).tasks && g !in Before(inputs, 0).silences
  {
  }

  lemma SilentNext(inputs: seq<Input>, i: nat, n: nat, g: nat)
    requires i < n < |inputs|
    ensures Silent(inputs, i, n + 1, g) <==> Silent(inputs, i, n, g) && !Shows(inputs, n, g)
    ensures StillShowing(inputs, i, n + 1, g) <==>
            StillShowing(inputs, i, n, g) && inputs[n] != Cap(g) && !SeesCancel(inputs, n, g)
  {
    hide Shows, SeesCancel;
  }

  lemma {:induction false} GenerationGrows(inputs: seq<Input>, m: nat, n: nat)
    requires m <= n <= |inputs|
    ensures Before(inputs, m).generation <= Before(inputs, n).generation
  {
    hide Step, RegisteredIsLive, ReportedOnce;
    if m < n {
      GenerationGrows(inputs, m, n - 1);
      BeforeNext(inputs, n - 1);
      GenerationStep(Before(inputs, n - 1), inputs[n - 1]);
    }
  }

  lemma GenerationStep(s: State, input: Input)
    requires WellFormed(s)
    ensures s.generation <= Step(s, input).generation
  {
  }

  /** A task is started once, and is there from then on. */
  lemma StartedOnce(inputs: seq<Input>, i: nat, j: nat, g: nat)
    requires StartedAt(inputs, i, g) && StartedAt(inputs, j, g)
    ensures i == j
  {
    hide Step, Inv;
    if i < j {
      StartedNext(inputs, i, g);
      GenerationGrows(inputs, i + 1, j);
    } else if j < i {
      StartedNext(inputs, j, g);
      GenerationGrows(inputs, j + 1, i);
    }
  }

  lemma StartedNext(inputs: seq<Input>, i: nat, g: nat)
    requires StartedAt(inputs, i, g)
    ensures Before(inputs, i + 1).generation == g && g in Before(inputs, i + 1).tasks
  {
    hide Inv;
    BeforeNext(inputs, i);
  }

  lemma {:induction false} TaskStays(inputs: seq<Input>, m: nat, n: nat, g: nat)
    requires m <= n <= |inputs| && g in Before(inputs, m).tasks
    ensures g in Before(inputs, n).tasks
  {
    hide Step, Inv;
    if m < n {
      TaskStays(inputs, m, n - 1, g);
      BeforeNext(inputs, n - 1);
      TaskStep(Before(inputs, n - 1), inputs[n - 1], g);
    }
  }

  lemma {:induction false} SilenceStays(inputs: seq<Input>, m: nat, n: nat, g: nat)
    requires m <= n <= |inputs| && g in Before(inputs, m).silences
    ensures g in Before(inputs, n).silences
  {
    hide Step;
    if m < n {
      SilenceStays(inputs, m, n - 1, g);
      BeforeNext(inputs, n - 1);
      TaskStep(Before(inputs, n - 1), inputs[n - 1], g);
    }
  }

  lemma {:induction false} ReportOf(inputs: seq<Input>, n: nat, g: nat) returns (i: nat, j: nat)
    requires n <= |inputs| && g in Before(inputs, n).silences
    ensures j < n && Reports(inputs, i, j, g)
  {
    hide Step, Inv, Shows, SeesCancel, Silent, StillShowing;
    assert n > 0 by { NothingStarted(inputs, g); }
    var s, input := Before(inputs, n - 1), inputs[n - 1];
    BeforeNext(inputs, n - 1);
    if g in s.silences {
      i, j := ReportOf(inputs, n - 1, g);
    } else {
      if g !in s.tasks {
        NewTaskStep(s, input, g);
      }
      TaskStep(s, input, g);
      i := StartOf(inputs, n - 1, g);
      j := n - 1;
    }
  }

  lemma ReportIsMade(inputs: seq<Input>, i: nat, j: nat, g: nat)
    requires Reports(inputs, i, j, g)
    ensures g in Before(inputs, j + 1).silences && g !in Before(inputs, j).silences
  {
    hide Step, Inv, Shows, SeesCancel, Silent, StillShowing;
    StartedNext(inputs, i, g);
    TaskStays(inputs, i + 1, j, g);
    var i' := StartOf(inputs, j, g);
    StartedOnce(inputs, i, i', g);
    BeforeNext(inputs, j);
    TaskStep(Before(inputs, j), inputs[j], g);
    NotYetReported(inputs, j, g);
  }

  lemma NotYetReported(inputs: seq<Input>, j: nat, g: nat)
    requires j <= |inputs| && g in Before(inputs, j).tasks && Before(inputs, j).tasks[g].phase.Showing?
    ensures g !in Before(inputs, j).silences
  {
    hide Step, RegisteredIsLive;
  }

  /**
    Over every run, silence is reported for a task if and only if a delivery started it, it
    reached its cap before it saw a cancellation, and no unwatched start came in its room between.
   */
  lemma SilenceExactly(inputs: seq<Input>, g: nat)
    ensures g in After(inputs).silences <==> exists i: nat, j: nat :: Reports(inputs, i, j, g)
  {
    hide Step, Inv, Reports;
    assert inputs[..|inputs|] == inputs;
    if g in After(inputs).silences {
      var i, j := ReportOf(inputs, |inputs|, g);
    }
    forall i: nat, j: nat | Reports(inputs, i, j, g) ensures g in After(inputs).silences {
      assert j < |inputs| by { ReportInRun(inputs, i, j, g); }
      ReportIsMade(inputs, i, j, g);
      SilenceStays(inputs, j + 1, |inputs|, g);
    }
  }

  lemma ReportInRun(inputs: seq<Input>, i: nat, j: nat, g: nat)
    requires Reports(inputs, i, j, g)
    ensures i < j < |inputs|
  {
  }

  /**
    A reply, or the end of its session, stops the task at `c`, and the cap at `j` comes before the
    task has seen that: it was started as a watched one, and neither an unwatched start nor a cap
    came before the stop.
   */
  ghost predicate StoppedTooLate(inputs: seq<Input>, i: nat, c: nat, j: nat, g: nat) {
    && i < c < j < |inputs| && StartedWatched(inputs, i, g) && inputs[j] == Cap(g)
    && (forall k :: i < k < c ==> !Shows(inputs, k, g) && inputs[k] != Cap(g))
    && (forall k :: c < k < j ==> inputs[k] != SeeCancel(g) && inputs[k] != Cap(g))
  }

  /** A task that is stopped is live until then and cancelled from then on. */
  lemma StopStep(s: State, input: Input, g: nat)
    requires Inv(s) && (input.Stop? || input.StopSession?)
    requires exists room :: room in Dropping(s, input) && room in s.entries && s.entries[room] == g
    ensures g in s.tasks && !s.tasks[g].cancelled && g in Step(s, input).tasks && Step(s, input).tasks[g].cancelled
  {
    hide ReportedOnce, RoomsOf;
  }

  lemma CancelledStep(s: State, input: Input, g: nat)
    requires Inv(s) && g in s.tasks && s.tasks[g].cancelled
    ensures g in Step(s, input).tasks && Step(s, input).tasks[g].cancelled
    ensures forall room :: room in s.entries ==> s.entries[room] != g
  {
    hide ReportedOnce, RoomsOf;
  }

  lemma {:induction false} CancelledStays(inputs: seq<Input>, m: nat, n: nat, g: nat)
    requires m <= n <= |inputs| && g in Before(inputs, m).tasks && Before(inputs, m).tasks[g].cancelled
    ensures g in Before(inputs, n).tasks && Before(inputs, n).tasks[g].cancelled
    ensures !Shows(inputs, n, g)
  {
    hide Step, Inv;
    if m < n {
      CancelledStays(inputs, m, n - 1, g);
      BeforeNext(inputs, n - 1);
      CancelledStep(Before(inputs, n - 1), inputs[n - 1], g);
    }
    CancelledStep(Before(inputs, n), Finish(g), g);
  }

  /** What a stop at `c` means for the steps before and after it. */
  lemma AroundStop(inputs: seq<Input>, c: nat, k: nat, g: nat)
    requires Stops(inputs, c, g) && k < |inputs|
    ensures k < c ==> !SeesCancel(inputs, k, g)
    ensures k > c ==> !Shows(inputs, k, g) && (SeesCancel(inputs, k, g) <==> inputs[k] == SeeCancel(g))
  {
    hide Step, Inv, Shows;
    StopStep(Before(inputs, c), inputs[c], g);
    BeforeNext(inputs, c);
    if k > c {
      CancelledStays(inputs, c + 1, k, g);
    } else if k < c && SeesCancel(inputs, k, g) {
      CancelledStays(inputs, k, c, g);
    }
  }

  /** Around a stop, a report is one whose stop came too late. */
  lemma ReportsAroundStop(inputs: seq<Input>, i: nat, c: nat, j: nat, g: nat)
    requires Stops(inputs, c, g) && i < c < j
    ensures Reports(inputs, i, j, g) <==> StoppedTooLate(inputs, i, c, j, g)
  {
    hide Stops, Shows, SeesCancel, StartedWatched;
    forall k: nat | k < |inputs|
      ensures k < c ==> !SeesCancel(inputs, k, g)
      ensures k > c ==> !Shows(inputs, k, g) && (SeesCancel(inputs, k, g) <==> inputs[k] == SeeCancel(g))
    {
      AroundStop(inputs, c, k, g);
    }
    StopIsNoOther(inputs, c, g);
  }

  lemma StopIsNoOther(inputs: seq<Input>, c: nat, g: nat)
    requires Stops(inputs, c, g)
    ensures c < |inputs| && inputs[c] != Cap(g) && !Shows(inputs, c, g) && !SeesCancel(inputs, c, g)
  {
  }

  /**
    Over every run, a task that a reply or the end of its session stopped reports silence after
    that, if and only if the cap came before the task saw the stop.
   */
  lemma ReportedAfterStopExactly(inputs: seq<Input>, c: nat, g: nat)
    requires Stops(inputs, c, g)
    ensures g in After(inputs).silences && g !in Before(inputs, c).silences <==>
            exists i: nat, j: nat :: StoppedTooLate(inputs, i, c, j, g)
  {
    hide Step, Inv, Reports, StoppedTooLate, Stops;
    assert inputs[..|inputs|] == inputs;
    StopIsNoOther(inputs, c, g);
    if g in After(inputs).silences && g !in Before(inputs, c).silences {
      var i, j := ReportOf(inputs, |inputs|, g);
      ReportInRun(inputs, i, j, g);
      ReportCapped(inputs, i, j, g);
      ReportIsMade(inputs, i, j, g);
      if j < c {
        SilenceStays(inputs, j + 1, c, g);
      }
      StopAfterStart(inputs, i, c, g);
      ReportsAroundStop(inputs, i, c, j, g);
    }
    forall i: nat, j: nat | StoppedTooLate(inputs, i, c, j, g)
      ensures g in After(inputs).silences && g !in Before(inputs, c).silences
    {
      assert i < c < j < |inputs| by { LateInRun(inputs, i, c, j, g); }
      ReportsAroundStop(inputs, i, c, j, g);
      ReportIsMade(inputs, i, j, g);
      SilenceStays(inputs, j + 1, |inputs|, g);
      if g in Before(inputs, c).silences {
        SilenceStays(inputs, c, j, g);
      }
    }
  }

  lemma LateInRun(inputs: seq<Input>, i: nat, c: nat, j: nat, g: nat)
    requires StoppedTooLate(inputs, i, c, j, g)
    ensures i < c < j < |inputs|
  {
  }

  lemma ReportCapped(inputs: seq<Input>, i: nat, j: nat, g: nat)
    requires Reports(inputs, i, j, g)
    ensures j < |inputs| && inputs[j] == Cap(g) && StartedAt(inputs, i, g)
  {
  }

  lemma StopAfterStart(inputs: seq<Input>, i: nat, c: nat, g: nat)
    requires StartedAt(inputs, i, g) && Stops(inputs, c, g)
    ensures i < c
  {
    hide Step, Inv;
    StopStep(Before(inputs, c), inputs[c], g);
    var i' := StartOf(inputs, c, g);
    StartedOnce(inputs, i, i', g);
  }

  // ------------------------------------------------------------------------------------
  // The failing cases happen

  lemma Four(a: Input, b: Input, c: Input, d: Input)
    ensures After([a]) == Step(Fresh, a)
    ensures After([a, b]) == Step(After([a]), b) && After([a, b, c]) == Step(After([a, b]), c)
    ensures After([a, b, c, d]) == Step(After([a, b, c]), d)
  {
    hide Step;
    assert Init([a, b, c, d]) == [a, b, c] && Init([a, b, c]) == [a, b] && Init([a, b]) == [a] && Init([a]) == [];
    assert After([]) == Fresh;
  }

  /** After a first delivery, which starts the first task. */
  function One(session: string, room: string, watch: bool, phase: Phase, silences: seq<nat>): State {
    State(map[room := 1], 1, map[1 := Task(session, room, false, watch, phase)], silences)
  }

  lemma OneSteps(session: string, room: string, watch: bool)
    ensures Step(Fresh, Start(session, room, watch)) == One(session, room, watch, Showing, [])
    ensures WellFormed(One(session, room, watch, Showing, [])) && WellFormed(One(session, room, watch, Ending, [1]))
    ensures Step(One(session, room, watch, Showing, []), Cap(1)) == One(session, room, watch, Ending, if watch then [1] else [])
    ensures Step(One(session, room, watch, Showing, []), Start(session, room, false)) == One(session, room, false, Showing, [])
  {
  }

  lemma OneDelivery(session: string, room: string, watch: bool, phase: Phase, silences: seq<nat>)
    ensures WellFormed(One(session, room, watch, phase, silences))
    ensures Step(One(session, room, watch, phase, silences), Start(session, room, true)) == One(session, room, watch, phase, silences)
  {
  }

  /**
    A message delivered after a task's cap and before its clean-up starts no task: the entry is
    still there, and then goes.
   */
  lemma LateDeliveryUnwatched(session: string, room: string)
    ensures var s := After([Start(session, room, true), Cap(1), Start(session, room, true), Finish(1)]);
            s.generation == 1 && s.entries == map[] && s.silences == [1]
  {
    hide Inv, After;
    var start := Start(session, room, true);
    hide Step;
    Four(start, Cap(1), start, Finish(1));
    OneSteps(session, room, true);
    OneDelivery(session, room, true, Ending, [1]);
    OneFinishes(session, room);
  }

  lemma OneFinishes(session: string, room: string)
    ensures WellFormed(One(session, room, true, Ending, [1]))
    ensures var s := Step(One(session, room, true, Ending, [1]), Finish(1));
            s.generation == 1 && s.entries == map[] && s.silences == [1]
  {
  }

  /** A message delivered after something was shown is not watched either, and is never reported. */
  lemma NextDeliveryUnwatched(session: string, room: string)
    ensures var s := After([Start(session, room, true), Start(session, room, false), Start(session, room, true), Cap(1)]);
            s.generation == 1 && s.silences == []
  {
    hide Inv, After, Step;
    var start, show := Start(session, room, true), Start(session, room, false);
    Four(start, show, start, Cap(1));
    OneSteps(session, room, true);
    OneSteps(session, room, false);
    OneDelivery(session, room, false, Showing, []);
  }

  /** A reply that stops a task does not keep it from reporting if the cap comes first. */
  lemma ReplyTooLate(session: string, room: string)
    ensures After([Start(session, room, true), Stop(room), Cap(1)]).silences == [1]
  {
    hide Inv, After;
    var start := Start(session, room, true);
    Four(start, Stop(room), Cap(1), Finish(1));
    OneSteps(session, room, true);
    var s := Step(One(session, room, true, Showing, []), Stop(room));
    assert s.tasks[1] == Task(session, room, true, true, Showing) && s.silences == [];
  }

  // ------------------------------------------------------------------------------------
  // The tables as the daemon changes them

  lemma DroppedMore(s: State, rooms: set<string>, room: string)
    requires WellFormed(s) && room !in rooms
    ensures WellFormed(Dropped(s, rooms)) && Dropped(s, rooms + {room}) == Dropped(Dropped(s, rooms), {room})
  {
    var t := Dropped(s, rooms);
    var x, y := Dropped(s, rooms + {room}), Dropped(t, {room});
    assert x.entries == y.entries;
    forall g | g in s.tasks ensures x.tasks[g] == y.tasks[g] {
      if room in s.entries && s.entries[room] == g {
        assert x.tasks[g] == Cancelled(s.tasks[g]) == y.tasks[g];
      }
    }
    assert x.tasks == y.tasks;
  }

  lemma DroppedNone(s: State)
    requires WellFormed(s)
    ensures Dropped(s, {}) == s
  {
    assert Dropped(s, {}).tasks == s.tasks;
  }

  class Table {
    var entries: map<string, nat>
    var generation: nat
    var tasks: map<nat, Task>
    var silences: seq<nat>

    function Now(): State
      reads this
    {
      State(entries, generation, tasks, silences)
    }

    constructor ()
      ensures Now() == Fresh && Inv(Now())
    {
      entries, generation, tasks, silences := map[], 0, map[], [];
    }

    method StartTask(session: string, room: string, watch: bool)
      requires Inv(Now())
      modifies this
      ensures Now() == Step(old(Now()), Start(session, room, watch)) && Inv(Now())
    {
      hide RegisteredIsLive, ReportedOnce;
      StepKeeps(Now(), Start(session, room, watch));
      if room in entries {
        if !watch {
          var g := entries[room];
          tasks := tasks[g := tasks[g].(watch := false)];
        }
        return;
      }
      generation := generation + 1;
      entries := entries[room := generation];
      tasks := tasks[generation := Task(session, room, false, watch, Showing)];
    }

    method StopRoom(room: string)
      requires WellFormed(Now())
      modifies this
      ensures Now() == Dropped(old(Now()), {room})
    {
      if room in entries {
        var g := entries[room];
        entries := entries - {room};
        tasks := tasks[g := Cancelled(tasks[g])];
      }
      assert entries == old(Dropped(Now(), {room})).entries;
      assert tasks == old(Dropped(Now(), {room})).tasks;
    }

    method StopTasks(session: string)
      requires Inv(Now())
      modifies this
      ensures Now() == Step(old(Now()), StopSession(session)) && Inv(Now())
    {
      hide RegisteredIsLive, ReportedOnce, Dropped;
      ghost var s := Now();
      StepKeeps(s, StopSession(session));
      var rooms := RoomsOf(Now(), session);
      ghost var done: set<string> := {};
      DroppedNone(s);
      while rooms != {}
        invariant WellFormed(Now()) && Now() == Dropped(s, done)
        invariant rooms !! done && rooms + done == RoomsOf(s, session)
        decreases |rooms|
      {
        var room :| room in rooms;
        DroppedMore(s, done, room);
        DroppedWellFormed(Dropped(s, done), {room});
        StopRoom(room);
        rooms, done := rooms - {room}, done + {room};
      }
    }

    /** A task leaves its loop: cancelled, or at the cap. */
    method EndTask(g: nat, cap: bool)
      requires Inv(Now())
      modifies this
      ensures Now() == Step(old(Now()), if cap then Cap(g) else SeeCancel(g)) && Inv(Now())
    {
      hide RegisteredIsLive, ReportedOnce;
      StepKeeps(Now(), if cap then Cap(g) else SeeCancel(g));
      if g in tasks && tasks[g].phase.Showing? && (cap || tasks[g].cancelled) {
        if cap && tasks[g].watch {
          silences := silences + [g];
        }
        tasks := tasks[g := tasks[g].(phase := Ending)];
      }
    }

    /** A task that has left its loop cleans up. */
    method FinishTask(g: nat)
      requires Inv(Now())
      modifies this
      ensures Now() == Step(old(Now()), Finish(g)) && Inv(Now())
    {
      hide RegisteredIsLive, ReportedOnce;
      StepKeeps(Now(), Finish(g));
      if g in tasks && tasks[g].phase.Ending? {
        var room := tasks[g].room;
        if room in entries && entries[room] == g {
          entries := entries - {room};
        }
        tasks := tasks[g := tasks[g].(phase := Gone)];
      }
    }
  }

  lemma DroppedWellFormed(s: State, rooms: set<string>)
    requires WellFormed(s)
    ensures WellFormed(Dropped(s, rooms))
  {
  }
}
