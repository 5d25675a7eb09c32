/**
  What the tracker does, in terms of the calls it got: which call was the last of a kind, and
  when it came. Nothing here looks at the tracker's own fields for a turn, a context, a person or
  a background task.
 */
module RotationHeard {
  import opened Prelude
  import opened Rotation
  import opened RotationTiming

  // ------------------------------------------------------------------------------------
  // Kinds of calls

  predicate Hears(c: TimedCall, p: Event -> bool) {
    c.call.Heard? && p(c.call.event)
  }

  /** A turn begins, or goes on. */
  predicate InTurn(c: TimedCall) {
    Hears(c, (e: Event) => e.Assistant? || e.User?)
  }

  predicate EndsTurn(c: TimedCall) {
    Hears(c, (e: Event) => e.Result?)
  }

  predicate FromPerson(c: TimedCall) {
    Hears(c, (e: Event) => (e.User? || e.Result?) && e.person)
  }

  /** A message of a model in the main conversation, with the size of its prompt. */
  predicate Measures(c: TimedCall) {
    Hears(c, (e: Event) => e.Assistant? && !e.subagent && !e.synthetic && e.contextTokens.Some?)
  }

  function Tokens(c: TimedCall): nat
    requires Measures(c)
  {
    c.call.event.contextTokens.value
  }

  predicate HearsBoundary(c: TimedCall) {
    Hears(c, (e: Event) => e.Boundary?)
  }

  predicate ListsTasks(c: TimedCall) {
    Hears(c, (e: Event) => e.BackgroundTasks?)
  }

  /** The call at `i` is of a kind, and none after it is of that kind. */
  predicate IsLast(calls: seq<TimedCall>, p: TimedCall -> bool, i: int) {
    0 <= i < |calls| && p(calls[i]) && NoneAfter(calls, p, i)
  }

  /** No call after the one at `i` is of a kind. */
  predicate NoneAfter(calls: seq<TimedCall>, p: TimedCall -> bool, i: int)
    requires 0 <= i < |calls|
  {
    forall k :: i < k < |calls| ==> !p(calls[k])
  }

  predicate Never(calls: seq<TimedCall>, p: TimedCall -> bool) {
    forall k :: 0 <= k < |calls| ==> !p(calls[k])
  }

  /** The last turn has ended: a result was heard, and no message since. */
  ghost predicate TurnOver(calls: seq<TimedCall>) {
    exists i :: IsLast(calls, EndsTurn, i) && NoneAfter(calls, InTurn, i)
  }

  /** No background task is known to be running. */
  ghost predicate NoTasks(calls: seq<TimedCall>) {
    Never(calls, ListsTasks) || exists i :: IsLast(calls, ListsTasks, i) && calls[i].call.event.ids == []
  }

  /** The last prompt since the last boundary was of at least this size. */
  ghost predicate PromptAtLeast(calls: seq<TimedCall>, limit: nat) {
    limit == 0 || exists i :: IsLast(calls, Measures, i) && Tokens(calls[i]) >= limit && NoneAfter(calls, HearsBoundary, i)
  }

  /** The last a person was heard of, or the start, is at least this long ago. */
  ghost predicate PersonGone(calls: seq<TimedCall>, start: nat, now: nat, idle: nat) {
    || idle == 0
    || (Never(calls, FromPerson) && start + idle <= now)
    || exists i :: IsLast(calls, FromPerson, i) && calls[i].now + idle <= now
  }

  // ------------------------------------------------------------------------------------
  // What the tracker remembers of its calls

  /** A tracker as a start of claude makes it. */
  predicate Starts(m: Machine, start: nat) {
    && m.turn && m.agents == {} && m.context == 0 && m.lastPerson == start && m.noteWritten && AtRest(m)
    && m.pending == !m.phase.Idle? && !m.phase.Compacting?
  }

  lemma StartsAre(limits: Limits, start: nat, notBefore: Option<nat>, attempts: nat, handoff: bool)
    ensures Starts(NewMachine(limits, start), start)
    ensures Starts(StartPending(NewMachine(limits, start), start, notBefore, attempts, handoff), start)
    ensures Starts(StartRetrying(NewMachine(limits, start), start, attempts, handoff), start)
    ensures limits.enabled ==>
              var m := StartPending(NewMachine(limits, start), start, notBefore, attempts, handoff);
              && m.phase.Waiting? && m.notBefore == notBefore
              && m.phase.deadline - limits.quiet in {start} + (if notBefore.Some? then {notBefore.value} else {})
              && start + limits.quiet <= m.phase.deadline && (notBefore.Some? ==> notBefore.value + limits.quiet <= m.phase.deadline)
    ensures StartRetrying(NewMachine(limits, start), start, attempts, handoff).phase == Handoff(start + limits.handoff)
  {
  }

  lemma {:induction false} AfterMore(m: Machine, calls: seq<TimedCall>, c: TimedCall)
    ensures AfterCalls(m, calls + [c]) == Apply(AfterCalls(m, calls), c)
    decreases calls
  {
    hide Apply;
    if calls == [] {
      assert [] + [c] == [c] && [c][1..] == [];
    } else {
      assert (calls + [c])[0] == calls[0] && (calls + [c])[1..] == calls[1..] + [c];
      AfterMore(Apply(m, calls[0]), calls[1..], c);
    }
  }

  lemma LastMore(calls: seq<TimedCall>, c: TimedCall, p: TimedCall -> bool, i: int)
    ensures IsLast(calls + [c], p, i) <==> if p(c) then i == |calls| else IsLast(calls, p, i)
    ensures Never(calls + [c], p) <==> Never(calls, p) && !p(c)
  {
    var more := calls + [c];
    assert more[|calls|] == c;
    assert forall k :: 0 <= k < |calls| ==> more[k] == calls[k];
  }

  lemma AllMore(calls: seq<TimedCall>, c: TimedCall, p: TimedCall -> bool, i: int)
    requires 0 <= i < |calls|
    ensures NoneAfter(calls + [c], p, i) <==> NoneAfter(calls, p, i) && !p(c)
  {
    var more := calls + [c];
    assert more[|calls|] == c;
    assert forall k :: 0 <= k < |calls| ==> more[k] == calls[k];
  }

  lemma TurnMore(calls: seq<TimedCall>, c: TimedCall)
    ensures TurnOver(calls + [c]) <==> EndsTurn(c) || (TurnOver(calls) && !InTurn(c))
  {
    hide EndsTurn, InTurn, NoneAfter;
    var more := calls + [c];
    forall i ensures IsLast(more, EndsTurn, i) <==> if EndsTurn(c) then i == |calls| else IsLast(calls, EndsTurn, i) {
      LastMore(calls, c, EndsTurn, i);
    }
    forall i | 0 <= i < |calls|
      ensures NoneAfter(more, InTurn, i) <==> NoneAfter(calls, InTurn, i) && !InTurn(c)
    {
      AllMore(calls, c, InTurn, i);
    }
    NoneAfterLast(more, InTurn);
    hide IsLast;
    forall i | IsLast(calls, EndsTurn, i) ensures 0 <= i < |calls| {
      LastInRange(calls, EndsTurn, i);
    }
    TurnNotBoth(c);
  }

  lemma TurnNotBoth(c: TimedCall)
    ensures !(EndsTurn(c) && InTurn(c))
  {
  }

  lemma NoneAfterLast(calls: seq<TimedCall>, p: TimedCall -> bool)
    requires calls != []
    ensures NoneAfter(calls, p, |calls| - 1)
  {
  }

  lemma LastInRange(calls: seq<TimedCall>, p: TimedCall -> bool, i: int)
    requires IsLast(calls, p, i)
    ensures 0 <= i < |calls| && p(calls[i])
  {
  }

  lemma TasksMore(calls: seq<TimedCall>, c: TimedCall)
    ensures NoTasks(calls + [c]) <==> if ListsTasks(c) then c.call.event.ids == [] else NoTasks(calls)
  {
    var more := calls + [c];
    assert more[|calls|] == c;
    forall i
      ensures IsLast(more, ListsTasks, i) <==> if ListsTasks(c) then i == |calls| else IsLast(calls, ListsTasks, i)
      ensures Never(more, ListsTasks) <==> Never(calls, ListsTasks) && !ListsTasks(c)
    {
      LastMore(calls, c, ListsTasks, i);
    }
    assert forall i :: 0 <= i < |calls| ==> more[i] == calls[i];
    LastMore(calls, c, ListsTasks, 0);
  }

  lemma PromptMore(calls: seq<TimedCall>, c: TimedCall, limit: nat)
    ensures PromptAtLeast(calls + [c], limit) <==>
            limit == 0 || if Measures(c) then Tokens(c) >= limit else !HearsBoundary(c) && PromptAtLeast(calls, limit)
  {
    hide Measures, HearsBoundary, NoneAfter;
    var more := calls + [c];
    assert more[|calls|] == c && forall i :: 0 <= i < |calls| ==> more[i] == calls[i];
    forall i ensures IsLast(more, Measures, i) <==> if Measures(c) then i == |calls| else IsLast(calls, Measures, i) {
      LastMore(calls, c, Measures, i);
    }
    forall i | 0 <= i < |calls|
      ensures NoneAfter(more, HearsBoundary, i) <==> NoneAfter(calls, HearsBoundary, i) && !HearsBoundary(c)
    {
      AllMore(calls, c, HearsBoundary, i);
    }
    NoneAfterLast(more, HearsBoundary);
  }

  lemma PersonMore(calls: seq<TimedCall>, c: TimedCall, start: nat, now: nat, idle: nat)
    ensures PersonGone(calls + [c], start, now, idle) <==>
            if FromPerson(c) then idle == 0 || c.now + idle <= now else PersonGone(calls, start, now, idle)
  {
    var more := calls + [c];
    assert more[|calls|] == c && forall i :: 0 <= i < |calls| ==> more[i] == calls[i];
    forall i
      ensures IsLast(more, FromPerson, i) <==> if FromPerson(c) then i == |calls| else IsLast(calls, FromPerson, i)
    {
      LastMore(calls, c, FromPerson, i);
    }
    LastMore(calls, c, FromPerson, 0);
  }

  // ------------------------------------------------------------------------------------
  // One call

  lemma AdvanceKeepsHeard(m: Machine, now: nat)
    ensures var n := Advance(m, now).machine;
            n.turn == m.turn && n.agents == m.agents && n.context == m.context && n.lastPerson == m.lastPerson
            && n.limits == m.limits && n.noteWritten == m.noteWritten && n.notBefore == m.notBefore
  {
  }

  lemma TurnEndKeepsHeard(m: Machine, isError: bool, now: nat)
    requires m.phase.Handoff? || m.phase.Compacting?
    ensures var n := TurnEnd(m, isError, now).machine;
            n.turn == m.turn && n.agents == m.agents && n.context == m.context && n.lastPerson == m.lastPerson
            && n.limits == m.limits && n.noteWritten == m.noteWritten
  {
  }

  /** What changes of what was heard. */
  predicate Changes(m: Machine, n: Machine, c: TimedCall) {
    && n.limits == m.limits
    && n.turn == (if EndsTurn(c) then false else m.turn || InTurn(c))
    && n.context == (if Measures(c) then Tokens(c) else if HearsBoundary(c) then 0 else m.context)
    && n.lastPerson == (if FromPerson(c) then c.now else m.lastPerson)
    && (n.agents == {} <==> if ListsTasks(c) then c.call.event.ids == [] else m.agents == {})
  }

  lemma NotedChanges(m: Machine, c: TimedCall)
    requires c.call.Heard?
    ensures Changes(m, Noted(m, c.call.event, c.now), c)
  {
    if c.call.event.BackgroundTasks? && c.call.event.ids != [] {
      assert c.call.event.ids[0] in Noted(m, c.call.event, c.now).agents;
    }
  }

  lemma NothingChanges(m: Machine, c: TimedCall)
    requires !c.call.Heard?
    ensures Changes(m, m, c)
  {
  }

  predicate SameHeard(m: Machine, n: Machine) {
    n.turn == m.turn && n.agents == m.agents && n.context == m.context && n.lastPerson == m.lastPerson && n.limits == m.limits
  }

  lemma ApplyHears(m: Machine, c: TimedCall)
    ensures Changes(m, Apply(m, c), c)
  {
    if c.call.Heard? {
      var event := c.call.event;
      var n := Noted(m, event, c.now);
      NotedPhase(m, event, c.now);
      NotedChanges(m, c);
      hide Changes, Noted, Advance, TurnEnd;
      AdvanceKeepsHeard(n, c.now);
      if event.Result? && (m.phase.Handoff? || m.phase.Compacting?) {
        TurnEndKeepsHeard(n, event.isError, c.now);
      }
      SameChanges(m, n, Apply(m, c), c);
    } else {
      hide Changes, Advance;
      NothingChanges(m, c);
      AdvanceKeepsHeard(m, c.now);
      AdvanceKeepsHeard(SetPending(m, c.now), c.now);
      SameChanges(m, m, Apply(m, c), c);
    }
  }

  lemma SameChanges(m: Machine, n: Machine, k: Machine, c: TimedCall)
    requires Changes(m, n, c) && SameHeard(n, k)
    ensures Changes(m, k, c)
  {
  }

  // ------------------------------------------------------------------------------------
  // Every run

  /** The tracker's fields are what was heard. */
  ghost predicate Told(m: Machine, calls: seq<TimedCall>, start: nat) {
    && (!m.turn <==> TurnOver(calls))
    && (m.agents == {} <==> NoTasks(calls))
    && (forall limit: nat :: m.context >= limit <==> PromptAtLeast(calls, limit))
    && (forall now: nat, idle: nat :: Max(0, now - m.lastPerson) >= idle <==> PersonGone(calls, start, now, idle))
  }

  lemma {:induction false} RemembersCalls(m: Machine, start: nat, calls: seq<TimedCall>)
    requires Starts(m, start)
    ensures Told(AfterCalls(m, calls), calls, start) && AtRest(AfterCalls(m, calls)) && AfterCalls(m, calls).limits == m.limits
  {
    if calls == [] {
      assert Never(calls, ListsTasks) && Never(calls, FromPerson);
    } else {
      var init, c := Init(calls), Last(calls);
      assert calls == init + [c];
      RemembersCalls(m, start, init);
      AfterMore(m, init, c);
      RemembersOneMore(AfterCalls(m, init), start, init, c);
      AtRestKept(AfterCalls(m, init), c);
    }
  }

  lemma RemembersOneMore(m: Machine, start: nat, calls: seq<TimedCall>, c: TimedCall)
    requires Told(m, calls, start)
    ensures Told(Apply(m, c), calls + [c], start) && Apply(m, c).limits == m.limits
  {
    hide Apply, TurnOver, NoTasks, PromptAtLeast, PersonGone, EndsTurn, InTurn, Measures, HearsBoundary, FromPerson, ListsTasks;
    ApplyHears(m, c);
    TurnMore(calls, c);
    TasksMore(calls, c);
    forall limit: nat ensures Apply(m, c).context >= limit <==> PromptAtLeast(calls + [c], limit) {
      PromptMore(calls, c, limit);
    }
    forall now: nat, idle: nat ensures Max(0, now - Apply(m, c).lastPerson) >= idle <==> PersonGone(calls + [c], start, now, idle) {
      PersonMore(calls, c, start, now, idle);
    }
  }

  /**
    A tick with no rotation pending begins one, if and only if rotation is enabled, the last turn
    has ended, the last prompt since the last boundary has reached the limit, and no person was
    heard of for the idle time.
   */
  lemma TickBeginsExactly(m: Machine, start: nat, calls: seq<TimedCall>, now: nat)
    requires Starts(m, start) && !AfterCalls(m, calls).pending
    ensures var was, tick := AfterCalls(m, calls), At(now, Ticked);
            && (Apply(was, tick).pending <==>
                && m.limits.enabled && TurnOver(calls) && PromptAtLeast(calls, m.limits.contextTokens)
                && PersonGone(calls, start, now, m.limits.idle))
            && (MarkPending in Replied(was, tick) <==> Apply(was, tick).pending)
  {
    hide TurnOver, NoTasks, PromptAtLeast, PersonGone, AfterCalls;
    RemembersCalls(m, start, calls);
    var was := AfterCalls(m, calls);
    AdvanceRests(was, now);
    PendingAdvance(SetPending(was, now), now);
  }

  lemma PendingAdvance(m: Machine, now: nat)
    ensures Advance(m, now).machine.pending == m.pending && MarkPending !in Advance(m, now).actions
  {
  }

  // ------------------------------------------------------------------------------------
  // The quiet moment

  /** A call that is more than a reminder: the tracker looks at its rotation. */
  predicate Looks(m: Machine, c: TimedCall) {
    c.call.Ticked? || c.call.Heard? || (c.call.MarkerFound? && m.limits.enabled)
  }

  predicate AllQuiet(m: Machine) {
    !m.turn && m.agents == {}
  }

  lemma AdvanceAsks(m: Machine, now: nat)
    ensures RequestHandoff in Advance(m, now).actions <==>
            m.phase.Waiting? && (m.notBefore.Some? ==> m.notBefore.value <= now) && AllQuiet(m)
  {
  }

  lemma TurnEndAsksNot(m: Machine, isError: bool, now: nat)
    requires m.phase.Handoff? || m.phase.Compacting?
    ensures RequestHandoff !in TurnEnd(m, isError, now).actions
  {
  }

  lemma NotedWaits(m: Machine, event: Event, now: nat)
    ensures var n := Noted(m, event, now);
            n.phase.Waiting? == m.phase.Waiting? && n.notBefore == m.notBefore && n.pending == m.pending && n.attempts == m.attempts
  {
  }

  /** A call asks for the handoff, if and only if a rotation is waiting once the call is noted, its
      pause is over, and everything is quiet then. */
  lemma AskedWhen(m: Machine, c: TimedCall)
    requires AtRest(m)
    ensures RequestHandoff in Replied(m, c) ==> AllQuiet(Apply(m, c)) && (m.notBefore.Some? ==> m.notBefore.value <= c.now)
    ensures m.pending && m.phase.Waiting? && Looks(m, c) && AllQuiet(Apply(m, c)) && (m.notBefore.Some? ==> m.notBefore.value <= c.now)
            ==> RequestHandoff in Replied(m, c)
  {
    if c.call.Heard? {
      var event := c.call.event;
      var n := Noted(m, event, c.now);
      NotedPhase(m, event, c.now);
      NotedWaits(m, event, c.now);
      hide Noted, Advance, TurnEnd;
      AdvanceAsks(n, c.now);
      AdvanceKeepsHeard(n, c.now);
      if event.Result? && (m.phase.Handoff? || m.phase.Compacting?) {
        TurnEndAsksNot(n, event.isError, c.now);
      }
    } else {
      hide Advance;
      AdvanceAsks(m, c.now);
      AdvanceKeepsHeard(m, c.now);
      AdvanceAsks(SetPending(m, c.now), c.now);
      AdvanceKeepsHeard(SetPending(m, c.now), c.now);
    }
  }

  /**
    Every request for the handoff comes with the last turn ended, the last list of background
    tasks empty and the pause over; and a waiting rotation asks at the first call at which this
    is so.
   */
  lemma AsksExactly(m: Machine, start: nat, calls: seq<TimedCall>, c: TimedCall)
    requires Starts(m, start)
    ensures var was := AfterCalls(m, calls);
            var quiet := TurnOver(calls + [c]) && NoTasks(calls + [c]) && (was.notBefore.Some? ==> was.notBefore.value <= c.now);
            && (RequestHandoff in Replied(was, c) ==> quiet)
            && (was.pending && was.phase.Waiting? && Looks(was, c) && quiet ==> RequestHandoff in Replied(was, c))
  {
    hide TurnOver, NoTasks, PromptAtLeast, PersonGone, AfterCalls, Apply, Replied;
    RemembersCalls(m, start, calls);
    RemembersCalls(m, start, calls + [c]);
    AfterMore(m, calls, c);
    AskedWhen(AfterCalls(m, calls), c);
  }

  /** The pause is the one the rotation was started with, until the rotation is over. */
  lemma {:induction false} PauseStays(m: Machine, start: nat, calls: seq<TimedCall>)
    requires Starts(m, start) && UnderWayThroughout(m, calls)
    ensures AfterCalls(m, calls).notBefore == m.notBefore
    decreases calls
  {
    hide Apply;
    if calls != [] {
      PauseStep(m, calls[0]);
      PauseStaysFrom(Apply(m, calls[0]), calls[1..]);
    }
  }

  lemma {:induction false} PauseStaysFrom(m: Machine, calls: seq<TimedCall>)
    requires UnderWayThroughout(m, calls)
    ensures AfterCalls(m, calls).notBefore == m.notBefore
    decreases calls
  {
    hide Apply;
    if calls != [] {
      PauseStep(m, calls[0]);
      PauseStaysFrom(Apply(m, calls[0]), calls[1..]);
    }
  }

  lemma PauseStep(m: Machine, c: TimedCall)
    requires UnderWay(m) && UnderWay(Apply(m, c))
    ensures Apply(m, c).notBefore == m.notBefore
  {
    if c.call.Heard? {
      NotedWaits(m, c.call.event, c.now);
      NotedPhase(m, c.call.event, c.now);
      hide Noted;
    }
  }

  // ------------------------------------------------------------------------------------
  // The caps

  function ReplyAt(m: Machine, calls: seq<TimedCall>, i: nat): seq<Action>
    requires i < |calls|
  {
    Replied(AfterCalls(m, calls[..i]), calls[i])
  }

  /** The call at `i` began the rotation. */
  predicate BeginsAt(m: Machine, calls: seq<TimedCall>, i: nat)
    requires i < |calls|
  {
    !AfterCalls(m, calls[..i]).pending && AfterCalls(m, calls[..i + 1]).pending
  }

  predicate Cuts(a: Action) {
    a.Retry? || (a.GiveUp? && a.cut)
  }

  predicate CutsIn(actions: seq<Action>) {
    exists k :: 0 <= k < |actions| && Cuts(actions[k])
  }

  /** The deadline of a phase is the time of the call it began with, and its cap; or that of the start. */
  ghost predicate CapCounts(m: Machine, calls: seq<TimedCall>) {
    var now := AfterCalls(m, calls);
    match now.phase
    case Idle => true
    case Waiting(deadline) =>
      || now.phase == m.phase
      || exists i :: 0 <= i < |calls| && BeginsAt(m, calls, i) && deadline == calls[i].now + m.limits.quiet
    case Handoff(deadline) =>
      || now.phase == m.phase
      || exists i :: 0 <= i < |calls| && RequestHandoff in ReplyAt(m, calls, i) && deadline == calls[i].now + m.limits.handoff
    case Compacting(deadline, boundary, failed) =>
      exists i :: 0 <= i < |calls| && Compact in ReplyAt(m, calls, i) && deadline == calls[i].now + m.limits.compact
                  && (boundary <==> exists k :: i < k < |calls| && HearsManual(calls[k]))
                  && (failed <==> exists k :: i < k < |calls| && HearsFailure(calls[k]))
  }

  predicate HearsManual(c: TimedCall) {
    Hears(c, (e: Event) => e == Boundary(false))
  }

  predicate HearsFailure(c: TimedCall) {
    Hears(c, (e: Event) => e.CompactionFailed?)
  }

  /** What one call does to the phase. */
  predicate PhaseMoves(m: Machine, n: Machine, r: seq<Action>, c: TimedCall) {
    match n.phase
    case Idle => true
    case Waiting(deadline) => m.phase == n.phase || (!m.pending && n.pending && deadline == c.now + m.limits.quiet)
    case Handoff(deadline) => m.phase == n.phase || (RequestHandoff in r && deadline == c.now + m.limits.handoff)
    case Compacting(deadline, boundary, failed) =>
      || (Compact in r && deadline == c.now + m.limits.compact && !boundary && !failed)
      || (m.phase.Compacting? && deadline == m.phase.deadline
          && boundary == (m.phase.boundary || HearsManual(c)) && failed == (m.phase.failed || HearsFailure(c)))
  }

  lemma AdvancePhase(m: Machine, now: nat)
    ensures var r := Advance(m, now);
            match r.machine.phase
            case Idle => true
            case Handoff(deadline) => m.phase == r.machine.phase || (RequestHandoff in r.actions && deadline == now + m.limits.handoff)
            case _ => m.phase == r.machine.phase
  {
  }

  lemma TurnEndPhase(m: Machine, isError: bool, now: nat)
    requires m.phase.Handoff? || m.phase.Compacting?
    ensures var r := TurnEnd(m, isError, now);
            match r.machine.phase
            case Idle => true
            case Compacting(deadline, boundary, failed) =>
              m.phase == r.machine.phase || (Compact in r.actions && deadline == now + m.limits.compact && !boundary && !failed)
            case _ => m.phase == r.machine.phase
  {
  }

  lemma NotedMoves(m: Machine, c: TimedCall)
    requires c.call.Heard?
    ensures var n := Noted(m, c.call.event, c.now);
            && n.limits == m.limits && n.pending == m.pending
            && if m.phase.Compacting? then
                 && n.phase.Compacting? && n.phase.deadline == m.phase.deadline
                 && n.phase.boundary == (m.phase.boundary || HearsManual(c)) && n.phase.failed == (m.phase.failed || HearsFailure(c))
               else n.phase == m.phase
  {
  }

  lemma NothingHeard(c: TimedCall)
    requires !c.call.Heard?
    ensures !HearsManual(c) && !HearsFailure(c)
  {
  }

  lemma ApplyMoves(m: Machine, c: TimedCall)
    requires AtRest(m)
    ensures PhaseMoves(m, Apply(m, c), Replied(m, c), c)
  {
    if c.call.Heard? {
      var n := Noted(m, c.call.event, c.now);
      NotedMoves(m, c);
      hide Noted, Advance, TurnEnd, HearsManual, HearsFailure;
      AdvancePhase(n, c.now);
      if c.call.event.Result? && (m.phase.Handoff? || m.phase.Compacting?) {
        TurnEndPhase(n, c.call.event.isError, c.now);
      }
    } else {
      NothingHeard(c);
      hide Advance, HearsManual, HearsFailure;
      AdvancePhase(m, c.now);
      AdvancePhase(SetPending(m, c.now), c.now);
      PendingAdvance(SetPending(m, c.now), c.now);
    }
  }

  lemma ReplyBefore(m: Machine, calls: seq<TimedCall>, c: TimedCall, i: nat)
    requires i < |calls|
    ensures ReplyAt(m, calls + [c], i) == ReplyAt(m, calls, i) && BeginsAt(m, calls + [c], i) == BeginsAt(m, calls, i)
    ensures (calls + [c])[i] == calls[i]
  {
    hide AfterCalls, Replied;
    assert (calls + [c])[..i] == calls[..i] && (calls + [c])[..i + 1] == calls[..i + 1];
  }

  lemma ReplyNow(m: Machine, calls: seq<TimedCall>, c: TimedCall)
    ensures var more := calls + [c];
            && more[|calls|] == c && ReplyAt(m, more, |calls|) == Replied(AfterCalls(m, calls), c)
            && BeginsAt(m, more, |calls|) == (!AfterCalls(m, calls).pending && Apply(AfterCalls(m, calls), c).pending)
  {
    hide Replied, Apply;
    var more := calls + [c];
    assert more[..|calls|] == calls && more[..|calls| + 1] == more;
    AfterMore(m, calls, c);
  }

  lemma LaterMore(calls: seq<TimedCall>, c: TimedCall, p: TimedCall -> bool, i: nat)
    requires i < |calls|
    ensures (exists k :: i < k < |calls + [c]| && p((calls + [c])[k])) <==> (exists k :: i < k < |calls| && p(calls[k])) || p(c)
  {
    var more := calls + [c];
    assert more[|calls|] == c;
    assert forall k :: 0 <= k < |calls| ==> more[k] == calls[k];
  }

  lemma CapCountsMore(m: Machine, calls: seq<TimedCall>, c: TimedCall)
    requires CapCounts(m, calls) && PhaseMoves(AfterCalls(m, calls), Apply(AfterCalls(m, calls), c), Replied(AfterCalls(m, calls), c), c)
    requires AfterCalls(m, calls).limits == m.limits
    ensures CapCounts(m, calls + [c])
  {
    hide Apply, Replied, HearsManual, HearsFailure, ReplyAt, BeginsAt, AfterCalls;
    var was, more := AfterCalls(m, calls), calls + [c];
    AfterMore(m, calls, c);
    ReplyNow(m, calls, c);
    forall i | 0 <= i < |calls|
      ensures ReplyAt(m, more, i) == ReplyAt(m, calls, i) && BeginsAt(m, more, i) == BeginsAt(m, calls, i) && more[i] == calls[i]
      ensures (exists k :: i < k < |more| && HearsManual(more[k])) <==> (exists k :: i < k < |calls| && HearsManual(calls[k])) || HearsManual(c)
      ensures (exists k :: i < k < |more| && HearsFailure(more[k])) <==> (exists k :: i < k < |calls| && HearsFailure(calls[k])) || HearsFailure(c)
    {
      ReplyBefore(m, calls, c, i);
      LaterMore(calls, c, HearsManual, i);
      LaterMore(calls, c, HearsFailure, i);
    }
  }

  /** After any calls, the deadline of the phase is what `CapCounts` says. */
  lemma {:induction false} EveryCapCounts(m: Machine, start: nat, calls: seq<TimedCall>)
    requires Starts(m, start)
    ensures CapCounts(m, calls)
  {
    hide CapCounts, PhaseMoves, Told;
    if calls == [] {
      CapCountsAtStart(m, start);
    } else {
      var init, c := Init(calls), Last(calls);
      assert calls == init + [c];
      EveryCapCounts(m, start, init);
      RemembersCalls(m, start, init);
      ApplyMoves(AfterCalls(m, init), c);
      CapCountsMore(m, init, c);
    }
  }

  lemma CapCountsAtStart(m: Machine, start: nat)
    requires Starts(m, start)
    ensures CapCounts(m, [])
  {
  }

  /** The end of a turn in which the handoff or the compaction is awaited. */
  predicate EndsAwaited(m: Machine, c: TimedCall) {
    EndsTurn(c) && (m.phase.Handoff? || m.phase.Compacting?)
  }

  lemma AdvanceCuts(m: Machine, now: nat)
    ensures CutsIn(Advance(m, now).actions) <==>
            && !m.phase.Idle? && m.phase.deadline <= now
            && (m.phase.Waiting? ==> (m.notBefore.Some? ==> m.notBefore.value <= now) && !AllQuiet(m))
  {
    var actions := Advance(m, now).actions;
    if |actions| == 1 {
      assert CutsIn(actions) <==> Cuts(actions[0]);
    } else if |actions| == 2 {
      assert !Cuts(actions[0]) && !Cuts(actions[1]);
    }
  }

  lemma TurnEndCutsNot(m: Machine, isError: bool, now: nat)
    requires m.phase.Handoff? || m.phase.Compacting?
    ensures !CutsIn(TurnEnd(m, isError, now).actions)
  {
  }

  lemma CutWhen(m: Machine, c: TimedCall)
    requires m.pending && !m.phase.Idle?
    ensures CutsIn(Replied(m, c)) <==>
            && Looks(m, c) && !EndsAwaited(m, c) && m.phase.deadline <= c.now
            && (m.phase.Waiting? ==> (m.notBefore.Some? ==> m.notBefore.value <= c.now) && !AllQuiet(Apply(m, c)))
  {
    if c.call.Heard? {
      var n := Noted(m, c.call.event, c.now);
      NotedMoves(m, c);
      NotedWaits(m, c.call.event, c.now);
      hide Noted, Advance, TurnEnd, HearsManual, HearsFailure, CutsIn;
      AdvanceCuts(n, c.now);
      AdvanceKeepsHeard(n, c.now);
      if c.call.event.Result? && (m.phase.Handoff? || m.phase.Compacting?) {
        TurnEndCutsNot(n, c.call.event.isError, c.now);
      }
    } else {
      hide Advance;
      AdvanceCuts(m, c.now);
      AdvanceKeepsHeard(m, c.now);
      if c.call.Ticked? {
        assert [] + Advance(m, c.now).actions == Advance(m, c.now).actions;
      }
    }
  }

  /**
    A rotation is cut, if and only if its cap has passed at a call that is no end of an awaited
    turn, and, while it waits, the pause is over and something still runs.
   */
  lemma CutsExactly(m: Machine, start: nat, calls: seq<TimedCall>, c: TimedCall)
    requires Starts(m, start) && AfterCalls(m, calls).pending && !AfterCalls(m, calls).phase.Idle?
    ensures CapCounts(m, calls)
    ensures var was := AfterCalls(m, calls);
            CutsIn(Replied(was, c)) <==>
            && Looks(was, c) && !EndsAwaited(was, c) && was.phase.deadline <= c.now
            && (was.phase.Waiting? ==> (was.notBefore.Some? ==> was.notBefore.value <= c.now)
                                       && !(TurnOver(calls + [c]) && NoTasks(calls + [c])))
  {
    hide TurnOver, NoTasks, PromptAtLeast, PersonGone, AfterCalls, Apply, Replied, CapCounts, Looks, EndsAwaited, CutsIn;
    EveryCapCounts(m, start, calls);
    RemembersCalls(m, start, calls + [c]);
    AfterMore(m, calls, c);
    CutWhen(AfterCalls(m, calls), c);
  }

  predicate ChecksNote(c: TimedCall) {
    c.call.NoteChecked?
  }

  /** What the disk said of the note when it was last asked; before that it counts as written. */
  ghost predicate NoteWas(calls: seq<TimedCall>) {
    Never(calls, ChecksNote) || exists i :: IsLast(calls, ChecksNote, i) && calls[i].call.written
  }

  lemma NoteMore(calls: seq<TimedCall>, c: TimedCall)
    ensures NoteWas(calls + [c]) <==> if ChecksNote(c) then c.call.written else NoteWas(calls)
  {
    var more := calls + [c];
    assert more[|calls|] == c && forall i :: 0 <= i < |calls| ==> more[i] == calls[i];
    forall i
      ensures IsLast(more, ChecksNote, i) <==> if ChecksNote(c) then i == |calls| else IsLast(calls, ChecksNote, i)
    {
      LastMore(calls, c, ChecksNote, i);
    }
    LastMore(calls, c, ChecksNote, 0);
  }

  lemma ApplyNotes(m: Machine, c: TimedCall)
    ensures Apply(m, c).noteWritten == if ChecksNote(c) then c.call.written else m.noteWritten
  {
    if c.call.Heard? {
      var n := Noted(m, c.call.event, c.now);
      NotedPhase(m, c.call.event, c.now);
      assert n.noteWritten == m.noteWritten;
      hide Noted, Advance, TurnEnd;
      AdvanceKeepsHeard(n, c.now);
      if c.call.event.Result? && (m.phase.Handoff? || m.phase.Compacting?) {
        TurnEndKeepsHeard(n, c.call.event.isError, c.now);
      }
    } else {
      hide Advance;
      AdvanceKeepsHeard(m, c.now);
      AdvanceKeepsHeard(SetPending(m, c.now), c.now);
    }
  }

  lemma {:induction false} NoteRemembered(m: Machine, start: nat, calls: seq<TimedCall>)
    requires Starts(m, start)
    ensures AfterCalls(m, calls).noteWritten <==> NoteWas(calls)
  {
    hide Apply;
    if calls == [] {
      assert Never(calls, ChecksNote);
    } else {
      var init, c := Init(calls), Last(calls);
      assert calls == init + [c];
      NoteRemembered(m, start, init);
      AfterMore(m, init, c);
      NoteMore(init, c);
      ApplyNotes(AfterCalls(m, init), c);
    }
  }

  /** One answer, of a failure rather than a cut. */
  predicate Fails(actions: seq<Action>) {
    |actions| == 1 && (actions[0].Postpone? || (actions[0].GiveUp? && !actions[0].cut))
  }

  /**
    The end of an awaited turn has one answer, by what was heard since the request or since
    `/compact`: the note written or not, a manual boundary or not, a failure or not.
   */
  lemma TurnEndsExactly(m: Machine, start: nat, calls: seq<TimedCall>, c: TimedCall)
    requires Starts(m, start) && EndsAwaited(AfterCalls(m, calls), c)
    ensures var r, isError := Replied(AfterCalls(m, calls), c), c.call.event.isError;
            if AfterCalls(m, calls).phase.Handoff? then
              if isError then Fails(r)
              else if NoteWas(calls) then r == [Snapshot(AfterHandoff), Compact] else r == [AwaitHandoff]
            else
              exists i :: 0 <= i < |calls| && Compact in ReplyAt(m, calls, i)
                && var manual, failed := (exists k :: i < k < |calls| && HearsManual(calls[k])), (exists k :: i < k < |calls| && HearsFailure(calls[k]));
                   if manual then r == [Compacted] else if failed || isError then Fails(r) else r == [AwaitCompaction]
  {
    hide AfterCalls, ReplyAt, HearsManual, HearsFailure, NoteWas;
    EveryCapCounts(m, start, calls);
    NoteRemembered(m, start, calls);
    EndAnswers(AfterCalls(m, calls), c);
    hide Replied, Fails, EndsAwaited;
  }

  lemma EndAnswers(m: Machine, c: TimedCall)
    requires EndsAwaited(m, c)
    ensures var r, isError := Replied(m, c), c.call.event.isError;
            if m.phase.Handoff? then
              if isError then Fails(r) else if m.noteWritten then r == [Snapshot(AfterHandoff), Compact] else r == [AwaitHandoff]
            else if m.phase.boundary then r == [Compacted]
            else if m.phase.failed || isError then Fails(r) else r == [AwaitCompaction]
  {
  }

  // ------------------------------------------------------------------------------------
  // When a snapshot is taken

  /** A snapshot before the handoff is taken by the first attempt only, right before it asks, and one
      after the handoff right before every compaction. */
  ghost predicate SnapshotsIn(m: Machine, answers: seq<Action>) {
    && (Snapshot(BeforeHandoff) in answers <==> RequestHandoff in answers && m.attempts == 0)
    && (Snapshot(AfterHandoff) in answers <==> Compact in answers)
  }

  lemma AdvanceSnapshots(m: Machine, now: nat)
    ensures SnapshotsIn(m, Advance(m, now).actions)
  {
  }

  lemma TurnEndSnapshots(m: Machine, isError: bool, now: nat)
    requires m.phase.Handoff? || m.phase.Compacting?
    ensures SnapshotsIn(m, TurnEnd(m, isError, now).actions)
  {
  }

  /** Whatever the call. */
  lemma SnapshotsExactly(m: Machine, c: TimedCall)
    ensures SnapshotsIn(m, Replied(m, c))
  {
    hide Advance, TurnEnd;
    match c.call
    case Heard(event) =>
      var n := Noted(m, event, c.now);
      assert n.attempts == m.attempts;
      if event.Result? && (m.phase.Handoff? || m.phase.Compacting?) {
        TurnEndSnapshots(n, event.isError, c.now);
      } else {
        AdvanceSnapshots(n, c.now);
      }
    case Ticked =>
      AdvanceSnapshots(SetPending(m, c.now), c.now);
      AdvanceSnapshots(m, c.now);
    case MarkerFound => AdvanceSnapshots(SetPending(m, c.now), c.now);
    case _ =>
  }
}
