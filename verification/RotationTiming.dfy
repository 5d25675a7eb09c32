/**
  How long a pending rotation can last, and in which order it moves.

  A run is the calls one tracker gets, each with the clock's reading. Whatever the calls
  are, a rotation leaves its last phase within the caps plus three tick intervals, and
  every move of the machine lowers one rank.
 */
module RotationTiming {
  import opened Prelude
  import opened Rotation

  datatype Call =
    | Heard(event: Event)
    | Ticked
    | MarkerFound
    | MarkerGone
    | NoteChecked(written: bool)

  datatype TimedCall = At(now: nat, call: Call)

  function Apply(m: Machine, c: TimedCall): Machine {
    match c.call
    case Heard(event) => OnEvent(m, event, c.now).machine
    case Ticked => OnTick(m, c.now).machine
    case MarkerFound => OnMarker(m, c.now).machine
    case MarkerGone => if Cancels(m) then m.Done() else m
    case NoteChecked(written) => m.(noteWritten := written)
  }

  /** The rotation is under way: neither finished, nor cut, failed or cancelled. */
  predicate UnderWay(m: Machine) {
    m.pending && !m.phase.Idle?
  }

  predicate UnderWayThroughout(m: Machine, calls: seq<TimedCall>)
    decreases calls
  {
    UnderWay(m) && (calls == [] || UnderWayThroughout(Apply(m, calls[0]), calls[1..]))
  }

  /** The clock never goes back, and no call comes more than `d` after the last tick. */
  predicate TickedEvery(d: nat, clock: nat, lastTick: nat, calls: seq<TimedCall>)
    decreases calls
  {
    calls == [] ||
    (&& clock <= calls[0].now <= lastTick + d
     && TickedEvery(d, calls[0].now, if calls[0].call.Ticked? then calls[0].now else lastTick, calls[1..]))
  }

  /** A pause never outlasts the cap on the wait for a quiet moment. */
  predicate PauseWithinCap(m: Machine) {
    m.phase.Waiting? && m.notBefore.Some? ==> m.notBefore.value <= m.phase.deadline
  }

  /** The instant by which a rotation in this phase has moved on for good. */
  function Horizon(m: Machine, d: nat): nat
    requires !m.phase.Idle?
  {
    match m.phase
    case Waiting(deadline) => deadline + m.limits.handoff + m.limits.compact + 3 * d
    case Handoff(deadline) => deadline + m.limits.compact + 2 * d
    case Compacting(deadline, _, _) => deadline + d
  }

  /** What a step from `m` to `n` at `now` keeps of the timing. */
  predicate InTime(m: Machine, n: Machine, now: nat, d: nat, lastTick: nat)
    requires !m.phase.Idle? && !n.phase.Idle?
  {
    && Horizon(n, d) <= Horizon(m, d)
    && PauseWithinCap(n) && n.limits == m.limits
    && lastTick <= n.phase.deadline
  }

  lemma AdvanceInTime(m: Machine, now: nat, d: nat, lastTick: nat)
    requires UnderWay(m) && PauseWithinCap(m) && UnderWay(Advance(m, now).machine)
    requires lastTick <= m.phase.deadline && lastTick <= now <= lastTick + d
    ensures InTime(m, Advance(m, now).machine, now, d, lastTick)
    ensures now <= Advance(m, now).machine.phase.deadline
  {
  }

  lemma NotedInTime(m: Machine, event: Event, now: nat, d: nat, lastTick: nat)
    requires UnderWay(m) && PauseWithinCap(m) && lastTick <= m.phase.deadline
    ensures UnderWay(Noted(m, event, now)) && InTime(m, Noted(m, event, now), now, d, lastTick)
    ensures Noted(m, event, now).phase.deadline == m.phase.deadline
  {
    match m.phase
    case Idle => assert false;
    case Waiting(_) =>
    case Handoff(_) =>
    case Compacting(_, _, _) =>
  }

  lemma TurnEndInTime(m: Machine, isError: bool, now: nat, d: nat, lastTick: nat)
    requires UnderWay(m) && !m.phase.Waiting? && UnderWay(TurnEnd(m, isError, now).machine)
    requires lastTick <= m.phase.deadline && lastTick <= now <= lastTick + d
    ensures InTime(m, TurnEnd(m, isError, now).machine, now, d, lastTick)
  {
  }

  /** No call moves the horizon of a rotation under way, if the last tick was in time. */
  lemma HorizonNeverMoves(m: Machine, c: TimedCall, d: nat, lastTick: nat)
    requires UnderWay(m) && PauseWithinCap(m) && UnderWay(Apply(m, c))
    requires lastTick <= m.phase.deadline && lastTick <= c.now <= lastTick + d
    ensures c.now <= Horizon(m, d)
    ensures InTime(m, Apply(m, c), c.now, d, lastTick)
    ensures c.call.Ticked? ==> c.now <= Apply(m, c).phase.deadline
  {
    match c.call
    case Heard(event) =>
      NotedInTime(m, event, c.now, d, lastTick);
      var n := Noted(m, event, c.now);
      if event.Result? && !m.phase.Waiting? {
        TurnEndInTime(n, event.isError, c.now, d, lastTick);
      } else {
        AdvanceInTime(n, c.now, d, lastTick);
      }
    case Ticked => AdvanceInTime(m, c.now, d, lastTick);
    case MarkerFound => if m.limits.enabled { AdvanceInTime(m, c.now, d, lastTick); }
    case _ =>
  }

  /** While a rotation is under way, the clock has not passed the horizon it had. */
  lemma {:induction false} UnderWayOnlyUntilHorizon(m: Machine, calls: seq<TimedCall>, d: nat, clock: nat, lastTick: nat)
    requires PauseWithinCap(m) && UnderWayThroughout(m, calls)
    requires lastTick <= clock && lastTick <= m.phase.deadline && TickedEvery(d, clock, lastTick, calls)
    ensures calls != [] ==> Last(calls).now <= Horizon(m, d)
    decreases calls
  {
    if calls != [] {
      var c, rest := calls[0], calls[1..];
      var next := Apply(m, c);
      assert UnderWayThroughout(next, rest);
      HorizonNeverMoves(m, c, d, lastTick);
      UnderWayOnlyUntilHorizon(next, rest, d, c.now, if c.call.Ticked? then c.now else lastTick);
      if rest != [] {
        assert Last(rest) == Last(calls);
      }
    }
  }

  // ------------------------------------------------------------------------------------
  // The rank

  function PhaseRank(p: Phase): nat {
    match p
    case Idle => 0
    case Waiting(_) => 3
    case Handoff(_) => 2
    case Compacting(_, _, _) => 1
  }

  /** Attempts left, then the phases still to come: lexicographic, as one number. */
  function Rank(m: Machine): int {
    4 * (HANDOFF_ATTEMPTS - m.attempts) + PhaseRank(m.phase)
  }

  predicate Resolves(a: Action) {
    a.Compacted? || a.Retry? || a.Postpone? || a.GiveUp?
  }

  function Replied(m: Machine, c: TimedCall): seq<Action> {
    match c.call
    case Heard(event) => OnEvent(m, event, c.now).actions
    case Ticked => OnTick(m, c.now).actions
    case MarkerFound => OnMarker(m, c.now).actions
    case _ => []
  }

  /** What a reply may do to a rotation under way: keep the phase or lower the rank, end
      exactly with an answer that resolves the attempt, and spend an attempt exactly by a
      `Retry`, a `Postpone` or a `GiveUp`, which comes last and once. */
  predicate Falls(m: Machine, r: Reply) {
    var after, last := r.machine, if r.actions == [] then RequestHandoff else Last(r.actions);
    && (UnderWay(after) ==> after.attempts == m.attempts)
    && (PhaseRank(after.phase) != PhaseRank(m.phase) && after.pending ==> Rank(after) < Rank(m))
    && (!UnderWay(after) <==> Resolves(last))
    && (after.attempts == m.attempts + 1 <==> Resolves(last) && !last.Compacted?)
    && (forall i :: 0 <= i < |r.actions| - 1 ==> !Resolves(r.actions[i]))
  }

  lemma AdvanceFalls(m: Machine, now: nat)
    requires UnderWay(m) && m.attempts < HANDOFF_ATTEMPTS
    ensures Falls(m, Advance(m, now))
  {
  }

  lemma TurnEndFalls(m: Machine, isError: bool, now: nat)
    requires UnderWay(m) && !m.phase.Waiting? && m.attempts < HANDOFF_ATTEMPTS
    ensures Falls(m, TurnEnd(m, isError, now))
  {
  }

  lemma NotedKeepsRank(m: Machine, event: Event, now: nat)
    requires UnderWay(m)
    ensures var n := Noted(m, event, now);
            && UnderWay(n) && n.attempts == m.attempts && n.limits == m.limits
            && PhaseRank(n.phase) == PhaseRank(m.phase) && n.phase.Waiting? == m.phase.Waiting?
  {
  }

  /** Every move of a rotation under way lowers the rank (attempts left, phases to come),
      whatever the call; a cancellation is the only other way out of it. */
  lemma RankFalls(m: Machine, c: TimedCall)
    requires UnderWay(m) && m.attempts < HANDOFF_ATTEMPTS
    ensures if c.call.MarkerGone? && m.phase.Waiting? then !Apply(m, c).pending
            else Falls(m, Reply(Apply(m, c), Replied(m, c)))
  {
    match c.call
    case Heard(event) =>
      var n := Noted(m, event, c.now);
      NotedKeepsRank(m, event, c.now);
      if event.Result? && !m.phase.Waiting? {
        TurnEndFalls(n, event.isError, c.now);
      } else {
        AdvanceFalls(n, c.now);
      }
    case Ticked => AdvanceFalls(m, c.now);
    case MarkerFound => AdvanceFalls(m, c.now);
    case _ =>
  }

  // ------------------------------------------------------------------------------------
  // Every rotation ends in time, and with an answer

  function AfterCalls(m: Machine, calls: seq<TimedCall>): Machine
    decreases calls
  {
    if calls == [] then m else AfterCalls(Apply(m, calls[0]), calls[1..])
  }

  /** The call ends a rotation under way: its reply resolves the attempt, or it cancels the wait. */
  predicate Resolving(m: Machine, c: TimedCall) {
    || (c.call.MarkerGone? && m.phase.Waiting?)
    || (Replied(m, c) != [] && Resolves(Last(Replied(m, c))))
  }

  /** The rotation is under way up to the call at `i`, which ends it. */
  predicate ResolvedAt(m: Machine, calls: seq<TimedCall>, i: nat) {
    i < |calls| && UnderWayThroughout(m, calls[..i]) && Resolving(AfterCalls(m, calls[..i]), calls[i])
  }

  lemma EndsByAdvance(m: Machine, now: nat)
    requires UnderWay(m) && !UnderWay(Advance(m, now).machine)
    ensures Advance(m, now).actions != [] && Resolves(Last(Advance(m, now).actions))
  {
  }

  lemma EndsByTurn(m: Machine, isError: bool, now: nat)
    requires UnderWay(m) && !m.phase.Waiting? && !UnderWay(TurnEnd(m, isError, now).machine)
    ensures TurnEnd(m, isError, now).actions != [] && Resolves(Last(TurnEnd(m, isError, now).actions))
  {
  }

  /** A rotation is never left without an answer: what ends it is such a call. */
  lemma EndsByAnswer(m: Machine, c: TimedCall)
    requires UnderWay(m) && !UnderWay(Apply(m, c))
    ensures Resolving(m, c)
  {
    hide Resolves, Advance, TurnEnd;
    match c.call
    case Heard(event) =>
      var n := Noted(m, event, c.now);
      NotedKeepsRank(m, event, c.now);
      if event.Result? && !m.phase.Waiting? {
        EndsByTurn(n, event.isError, c.now);
      } else {
        EndsByAdvance(n, c.now);
      }
    case Ticked => EndsByAdvance(m, c.now);
    case MarkerFound => if m.limits.enabled { EndsByAdvance(m, c.now); }
    case _ =>
  }

  lemma {:induction false} EndsWithAnswer(m: Machine, calls: seq<TimedCall>) returns (i: nat)
    requires UnderWay(m) && !UnderWayThroughout(m, calls)
    ensures ResolvedAt(m, calls, i)
    decreases calls
  {
    hide Resolving, UnderWay, Apply;
    var next, rest := Apply(m, calls[0]), calls[1..];
    if UnderWay(next) {
      i := EndsWithAnswer(next, rest);
      assert calls[..i + 1][1..] == rest[..i];
      i := i + 1;
    } else {
      EndsByAnswer(m, calls[0]);
      i := 0;
      assert calls[..0] == [];
    }
  }

  /** A rotation under way is resolved by the time the clock has passed its horizon. */
  lemma ResolvedInTime(m: Machine, calls: seq<TimedCall>, d: nat, start: nat)
    requires UnderWay(m) && PauseWithinCap(m) && start <= m.phase.deadline
    requires calls != [] && TickedEvery(d, start, start, calls) && Last(calls).now > Horizon(m, d)
    ensures exists i :: ResolvedAt(m, calls, i)
  {
    hide ResolvedAt;
    if UnderWayThroughout(m, calls) {
      UnderWayOnlyUntilHorizon(m, calls, d, start, start);
    }
    var i := EndsWithAnswer(m, calls);
  }

  /** The bound on a rotation: the pause, the three caps and three tick intervals. */
  function Bound(limits: Limits, from: nat, d: nat): nat {
    from + limits.quiet + limits.handoff + limits.compact + 3 * d
  }

  /** Every rotation pending at a start ends in time: once the clock of a run has passed the
      bound, some call has resolved or cancelled it, whatever the calls were. */
  lemma RotationEndsInTime(
    limits: Limits, start: nat, notBefore: Option<nat>, attempts: nat, handoff: bool, calls: seq<TimedCall>, d: nat)
    requires limits.enabled && calls != [] && TickedEvery(d, start, start, calls)
    requires Last(calls).now > Bound(limits, if notBefore.Some? then Max(notBefore.value, start) else start, d)
    ensures exists i :: ResolvedAt(StartPending(NewMachine(limits, start), start, notBefore, attempts, handoff), calls, i)
  {
    hide ResolvedAt;
    ResolvedInTime(StartPending(NewMachine(limits, start), start, notBefore, attempts, handoff), calls, d, start);
  }

  /** The same for a rotation whose start already asks for the handoff. */
  lemma RetryEndsInTime(limits: Limits, start: nat, attempts: nat, handoff: bool, calls: seq<TimedCall>, d: nat)
    requires calls != [] && TickedEvery(d, start, start, calls)
    requires Last(calls).now > start + limits.handoff + limits.compact + 2 * d
    ensures exists i :: ResolvedAt(StartRetrying(NewMachine(limits, start), start, attempts, handoff), calls, i)
  {
    hide ResolvedAt;
    ResolvedInTime(StartRetrying(NewMachine(limits, start), start, attempts, handoff), calls, d, start);
  }

  /** Between rotations the machine is idle and no pause is on. */
  predicate AtRest(m: Machine) {
    !m.pending ==> m.phase.Idle? && m.notBefore.None?
  }

  lemma AdvanceRests(m: Machine, now: nat)
    requires AtRest(m)
    ensures AtRest(Advance(m, now).machine) && (!m.pending ==> Advance(m, now) == Reply(m, []))
  {
  }

  lemma NotedRests(m: Machine, event: Event, now: nat)
    requires AtRest(m)
    ensures AtRest(Noted(m, event, now)) && Noted(m, event, now).pending == m.pending
  {
  }

  lemma TurnEndRests(m: Machine, isError: bool, now: nat)
    requires AtRest(m) && (m.phase.Handoff? || m.phase.Compacting?)
    ensures AtRest(TurnEnd(m, isError, now).machine)
  {
  }

  lemma AtRestKept(m: Machine, c: TimedCall)
    requires AtRest(m)
    ensures AtRest(Apply(m, c))
  {
    hide Advance, TurnEnd;
    match c.call
    case Heard(event) =>
      var n := Noted(m, event, c.now);
      NotedRests(m, event, c.now);
      NotedPhase(m, event, c.now);
      AdvanceRests(n, c.now);
      if event.Result? && (m.phase.Handoff? || m.phase.Compacting?) {
        TurnEndRests(n, event.isError, c.now);
      }
    case Ticked =>
      AdvanceRests(m, c.now);
      AdvanceRests(SetPending(m, c.now), c.now);
    case MarkerFound => AdvanceRests(SetPending(m, c.now), c.now);
    case _ =>
  }

  lemma NotedPhase(m: Machine, event: Event, now: nat)
    ensures Noted(m, event, now).phase.Handoff? == m.phase.Handoff? && Noted(m, event, now).phase.Compacting? == m.phase.Compacting?
  {
  }

  lemma AtRestAtStart(limits: Limits, now: nat, notBefore: Option<nat>, attempts: nat, handoff: bool)
    ensures AtRest(NewMachine(limits, now))
    ensures AtRest(StartPending(NewMachine(limits, now), now, notBefore, attempts, handoff))
    ensures AtRest(StartRetrying(NewMachine(limits, now), now, attempts, handoff))
  {
  }

  /** And for a rotation that the marker or the threshold begins during a run: it is resolved at
      once, or by a later call within the bound. */
  lemma BegunEndsInTime(m: Machine, first: TimedCall, calls: seq<TimedCall>, d: nat)
    requires AtRest(m) && !m.pending && Apply(m, first).pending
    requires calls != [] && TickedEvery(d, first.now, first.now, calls)
    requires Last(calls).now > Bound(m.limits, first.now, d)
    ensures Resolving(m, first) || exists i :: ResolvedAt(Apply(m, first), calls, i)
  {
    hide ResolvedAt, UnderWayThroughout, TickedEvery;
    var n := Apply(m, first);
    BegunAtOnce(m, first);
    if UnderWay(n) {
      BegunHorizon(m, first, d);
      ResolvedInTime(n, calls, d, first.now);
    }
  }

  /** Only the marker and the threshold begin a rotation, and both by advancing a pending machine. */
  lemma BegunBy(m: Machine, first: TimedCall)
    requires AtRest(m) && !m.pending && Apply(m, first).pending
    ensures first.call.MarkerFound? || (first.call.Ticked? && m.ThresholdTripped(first.now))
    ensures var r := Advance(SetPending(m, first.now), first.now);
            Apply(m, first) == r.machine && (r.actions != [] ==> Replied(m, first) != [] && Last(Replied(m, first)) == Last(r.actions))
  {
    hide Advance;
    if first.call.Heard? {
      NotedRests(m, first.call.event, first.now);
      AdvanceRests(Noted(m, first.call.event, first.now), first.now);
    } else {
      AdvanceRests(m, first.now);
    }
  }

  lemma BegunAtOnce(m: Machine, first: TimedCall)
    requires AtRest(m) && !m.pending && Apply(m, first).pending
    ensures !UnderWay(Apply(m, first)) ==> Resolving(m, first)
  {
    hide Advance, Apply, Replied;
    BegunBy(m, first);
    if !UnderWay(Apply(m, first)) {
      EndsByAdvance(SetPending(m, first.now), first.now);
    }
  }

  lemma BegunHorizon(m: Machine, first: TimedCall, d: nat)
    requires AtRest(m) && !m.pending && UnderWay(Apply(m, first))
    ensures var n := Apply(m, first);
            PauseWithinCap(n) && first.now <= n.phase.deadline && Horizon(n, d) <= Bound(m.limits, first.now, d)
  {
    hide Apply, Replied;
    BegunBy(m, first);
  }
}
