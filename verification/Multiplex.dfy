/**
  Commands and their results over one connection that may break at any step: the plugin's
  `serve` loop (crates/silta-claude/src/daemon.rs), the daemon's command loop and its writer
  (crates/siltad/src/server.rs), and the socket both ways. A command is named by what was
  asked; a result by the id it carries and by what it answers.
 */
module Multiplex {
  import opened Prelude

  datatype Call = Call(id: nat, asked: string)

  /** A line from the plugin: a command, one the daemon cannot parse but whose id it can, or
      anything else (an acknowledgement, a file's pieces). */
  datatype Up = Cmd(call: Call) | BadCmd(call: Call) | OtherUp

  /** A message to the plugin: the result for an id, or anything else (an event, a file). */
  datatype Down = Result(call: Call) | OtherDown

  /** How a command is completed: by the daemon's result, refused because its file cannot be
      read, or with the connection lost. */
  datatype Done = Answered(answer: string) | Refused | Lost

  datatype Completion = Completion(call: Call, done: Done)

  datatype State = State(
    serving: bool,
    daemonUp: bool,
    nextId: nat,
    pending: seq<Call>,
    toDaemon: seq<Up>,
    working: seq<Call>,
    queue: seq<Down>,
    toPlugin: seq<Down>,
    completed: seq<Completion>)

  const Connected := State(true, true, 1, [], [], [], [], [], [])

  datatype Fate = Written | WrittenMalformed | LocalError | WriteFails

  datatype Input =
    | Accept(asked: string, fate: Fate)
    | SendOther
    | DaemonTakes
    | DaemonAnswers
    | DaemonSaysOther
    | WriterWrites
    | DaemonBreaks
    | PluginReads
    | PluginBreaks

  function AllLost(calls: seq<Call>): seq<Completion> {
    seq(|calls|, i requires 0 <= i < |calls| => Completion(calls[i], Lost))
  }

  /** The loop ends: what is pending is completed as lost. */
  function BreakOff(s: State): State {
    s.(serving := false, pending := [], completed := s.completed + AllLost(s.pending))
  }

  function OnAccept(s: State, asked: string, fate: Fate): State {
    var call := Call(s.nextId, asked);
    var t := s.(nextId := s.nextId + 1);
    match fate
    case LocalError => t.(completed := s.completed + [Completion(call, Refused)])
    case WriteFails => BreakOff(t.(completed := s.completed + [Completion(call, Lost)]))
    case Written => t.(pending := s.pending + [call], toDaemon := s.toDaemon + [Cmd(call)])
    case WrittenMalformed => t.(pending := s.pending + [call], toDaemon := s.toDaemon + [BadCmd(call)])
  }

  /** The position of the pending command with this id, or the length. */
  function FindPending(pending: seq<Call>, id: nat): (at: nat)
    ensures at <= |pending| && (at < |pending| ==> pending[at].id == id)
    ensures forall j :: 0 <= j < at ==> pending[j].id != id
  {
    if pending == [] || pending[0].id == id then 0 else 1 + FindPending(pending[1..], id)
  }

  function OnRead(s: State): State
    requires s.toPlugin != []
  {
    var t := s.(toPlugin := s.toPlugin[1..]);
    match s.toPlugin[0]
    case OtherDown => t
    case Result(call) =>
      var at := FindPending(s.pending, call.id);
      if at == |s.pending| then t
      else t.(pending := s.pending[..at] + s.pending[at + 1..],
              completed := s.completed + [Completion(s.pending[at], Answered(call.asked))])
  }

  function Step(s: State, input: Input): State {
    match input
    case Accept(asked, fate) => if s.serving then OnAccept(s, asked, fate) else s
    case SendOther => if s.serving then s.(toDaemon := s.toDaemon + [OtherUp]) else s
    case DaemonTakes =>
      if !s.daemonUp || s.working != [] || s.toDaemon == [] then s
      else if s.toDaemon[0].OtherUp? then s.(toDaemon := s.toDaemon[1..])
      else s.(toDaemon := s.toDaemon[1..], working := [s.toDaemon[0].call])
    case DaemonAnswers =>
      if !s.daemonUp || s.working == [] then s
      else s.(working := s.working[1..], queue := s.queue + [Result(s.working[0])])
    case DaemonSaysOther => if s.daemonUp then s.(queue := s.queue + [OtherDown]) else s
    case WriterWrites =>
      if !s.daemonUp || s.queue == [] then s
      else s.(queue := s.queue[1..], toPlugin := s.toPlugin + [s.queue[0]])
    case DaemonBreaks => s.(daemonUp := false)
    case PluginReads => if s.serving && s.toPlugin != [] then OnRead(s) else s
    case PluginBreaks => if s.serving then BreakOff(s) else s
  }

  function Steps(s: State, inputs: seq<Input>): State
    decreases inputs
  {
    if inputs == [] then s else Steps(Step(s, inputs[0]), inputs[1..])
  }

  // ------------------------------------------------------------------------------------
  // Results come in the order of the commands

  function CommandIn(up: Up): seq<Call> {
    if up.OtherUp? then [] else [up.call]
  }

  function ResultIn(down: Down): seq<Call> {
    if down.OtherDown? then [] else [down.call]
  }

  function Commands(ups: seq<Up>): seq<Call> {
    if ups == [] then [] else CommandIn(ups[0]) + Commands(ups[1..])
  }

  function Results(downs: seq<Down>): seq<Call> {
    if downs == [] then [] else ResultIn(downs[0]) + Results(downs[1..])
  }

  /** The calls on their way round the connection, the nearest to completion first. */
  function Round(s: State): seq<Call> {
    Results(s.toPlugin) + (Results(s.queue) + (s.working + Commands(s.toDaemon)))
  }

  predicate Increasing(calls: seq<Call>, below: nat) {
    && (forall i, j :: 0 <= i < j < |calls| ==> calls[i].id < calls[j].id)
    && (forall i :: 0 <= i < |calls| ==> calls[i].id < below)
  }

  /** While the plugin serves, the calls going round are the pending ones, in order; once the
      daemon's end is gone, what is left on the wire is the first of them. */
  predicate Inv(s: State) {
    if s.serving then
      && Increasing(s.pending, s.nextId)
      && (s.daemonUp ==> Round(s) == s.pending)
      && Results(s.toPlugin) <= s.pending
    else s.pending == []
  }

  lemma Regroup(a: seq<Call>, b: seq<Call>, c: seq<Call>)
    ensures (a + b) + c == a + (b + c)
  {
  }

  lemma {:induction false} CommandsMore(ups: seq<Up>, up: Up)
    ensures Commands(ups + [up]) == Commands(ups) + CommandIn(up)
  {
    if ups == [] {
      assert [] + [up] == [up] && [up][1..] == [];
    } else {
      CommandsMore(ups[1..], up);
      assert (ups + [up])[1..] == ups[1..] + [up];
      Regroup(CommandIn(ups[0]), Commands(ups[1..]), CommandIn(up));
    }
  }

  lemma {:induction false} ResultsMore(downs: seq<Down>, down: Down)
    ensures Results(downs + [down]) == Results(downs) + ResultIn(down)
  {
    if downs == [] {
      assert [] + [down] == [down] && [down][1..] == [];
    } else {
      ResultsMore(downs[1..], down);
      assert (downs + [down])[1..] == downs[1..] + [down];
      Regroup(ResultIn(downs[0]), Results(downs[1..]), ResultIn(down));
    }
  }

  lemma OneMore(calls: seq<Call>, call: Call)
    requires Increasing(calls, call.id)
    ensures Increasing(calls + [call], call.id + 1)
  {
  }

  lemma RoundGrows(a: seq<Call>, b: seq<Call>, c: seq<Call>, d: seq<Call>, call: Call)
    ensures a + (b + (c + (d + [call]))) == a + (b + (c + d)) + [call]
  {
    Regroup(c, d, [call]);
    Regroup(b, c + d, [call]);
    Regroup(a, b + (c + d), [call]);
  }

  lemma AcceptKeeps(s: State, asked: string, fate: Fate)
    requires Inv(s) && s.serving
    ensures Inv(OnAccept(s, asked, fate))
  {
    var call := Call(s.nextId, asked);
    if fate.Written? || fate.WrittenMalformed? {
      CommandsMore(s.toDaemon, if fate.Written? then Cmd(call) else BadCmd(call));
      RoundGrows(Results(s.toPlugin), Results(s.queue), s.working, Commands(s.toDaemon), call);
      OneMore(s.pending, call);
    }
  }

  lemma RestIncreasing(calls: seq<Call>, below: nat)
    requires Increasing(calls, below) && calls != []
    ensures Increasing(calls[1..], below)
  {
  }

  lemma FirstOf(first: Call, later: seq<Call>, calls: seq<Call>)
    requires [first] + later <= calls
    ensures calls != [] && calls[0] == first && later <= calls[1..]
  {
    assert calls[0] == ([first] + later)[0];
    assert later == ([first] + later)[1..];
  }

  lemma RestOf(first: Call, later: seq<Call>, others: seq<Call>, calls: seq<Call>)
    requires ([first] + later) + others == calls
    ensures later + others == calls[1..]
  {
  }

  /** The result read is that of the first pending command, and completes it. */
  lemma ReadCompletesFirst(s: State)
    requires Inv(s) && s.serving && s.toPlugin != [] && s.toPlugin[0].Result?
    ensures s.pending != [] && s.toPlugin[0].call == s.pending[0]
    ensures OnRead(s).completed == s.completed + [Completion(s.pending[0], Answered(s.pending[0].asked))]
    ensures OnRead(s).pending == s.pending[1..]
  {
    var call := s.toPlugin[0].call;
    FirstOf(call, Results(s.toPlugin[1..]), s.pending);
    assert FindPending(s.pending, call.id) == 0;
    assert s.pending[..0] + s.pending[1..] == s.pending[1..];
  }

  lemma ReadKeeps(s: State)
    requires Inv(s) && s.serving && s.toPlugin != []
    ensures Inv(OnRead(s))
  {
    if s.toPlugin[0].Result? {
      ReadCompletesFirst(s);
      var later := Results(s.toPlugin[1..]);
      FirstOf(s.toPlugin[0].call, later, s.pending);
      RestIncreasing(s.pending, s.nextId);
      if s.daemonUp {
        RestOf(s.toPlugin[0].call, later, Results(s.queue) + (s.working + Commands(s.toDaemon)), s.pending);
      }
    } else {
      assert Results(s.toPlugin) == Results(s.toPlugin[1..]);
    }
  }

  lemma TakeKeeps(s: State)
    requires Inv(s)
    ensures Inv(Step(s, DaemonTakes))
  {
    if s.daemonUp && s.working == [] && s.toDaemon != [] {
      var t := Step(s, DaemonTakes);
      assert t.working == CommandIn(s.toDaemon[0]);
      assert s.working + Commands(s.toDaemon) == t.working + Commands(t.toDaemon);
    }
  }

  lemma AnswerKeeps(s: State)
    requires Inv(s)
    ensures Inv(Step(s, DaemonAnswers))
  {
    if s.working != [] {
      ResultsMore(s.queue, Result(s.working[0]));
      Handover(Results(s.queue), s.working, Commands(s.toDaemon));
    }
  }

  lemma SayKeeps(s: State)
    requires Inv(s)
    ensures Inv(Step(s, DaemonSaysOther))
  {
    hide Results, Commands, Increasing;
    ResultsMore(s.queue, OtherDown);
    assert Results(s.queue) + [] == Results(s.queue);
  }

  lemma Handover(a: seq<Call>, b: seq<Call>, c: seq<Call>)
    requires b != []
    ensures (a + [b[0]]) + (b[1..] + c) == a + (b + c)
  {
  }

  lemma WriteKeeps(s: State)
    requires Inv(s)
    ensures Inv(Step(s, WriterWrites))
  {
    if s.daemonUp && s.queue != [] {
      ResultsMore(s.toPlugin, s.queue[0]);
      var moved, others := ResultIn(s.queue[0]), s.working + Commands(s.toDaemon);
      Regroup(moved, Results(s.queue[1..]), others);
      Regroup(Results(s.toPlugin), moved, Results(s.queue[1..]) + others);
    }
  }

  lemma SendKeeps(s: State)
    requires Inv(s)
    ensures Inv(Step(s, SendOther))
  {
    hide Results, Commands, Increasing;
    CommandsMore(s.toDaemon, OtherUp);
    assert Commands(s.toDaemon) + [] == Commands(s.toDaemon);
  }

  lemma StepKeeps(s: State, input: Input)
    requires Inv(s)
    ensures Inv(Step(s, input))
  {
    match input
    case Accept(asked, fate) => if s.serving { AcceptKeeps(s, asked, fate); }
    case SendOther => SendKeeps(s);
    case DaemonTakes => TakeKeeps(s);
    case DaemonAnswers => AnswerKeeps(s);
    case DaemonSaysOther => SayKeeps(s);
    case WriterWrites => WriteKeeps(s);
    case DaemonBreaks =>
    case PluginReads => if s.serving && s.toPlugin != [] { ReadKeeps(s); }
    case PluginBreaks =>
  }

  // ------------------------------------------------------------------------------------
  // Every command is completed exactly once

  /** How often a command is pending or completed. */
  function Times(s: State, id: nat): nat {
    CountPending(s.pending, id) + CountCompleted(s.completed, id)
  }

  function CountPending(calls: seq<Call>, id: nat): nat {
    if calls == [] then 0 else (if calls[0].id == id then 1 else 0) + CountPending(calls[1..], id)
  }

  function CountCompleted(completed: seq<Completion>, id: nat): nat {
    if completed == [] then 0 else CountCompleted(Init(completed), id) + (if Last(completed).call.id == id then 1 else 0)
  }

  lemma {:induction false} PendingMore(calls: seq<Call>, call: Call, id: nat)
    ensures CountPending(calls + [call], id) == CountPending(calls, id) + (if call.id == id then 1 else 0)
  {
    if calls == [] {
      assert [] + [call] == [call] && [call][1..] == [];
    } else {
      PendingMore(calls[1..], call, id);
      assert (calls + [call])[1..] == calls[1..] + [call];
    }
  }

  lemma CompletedMore(completed: seq<Completion>, c: Completion, id: nat)
    ensures CountCompleted(completed + [c], id) == CountCompleted(completed, id) + (if c.call.id == id then 1 else 0)
  {
    assert Init(completed + [c]) == completed;
  }

  lemma {:induction false} LostMore(completed: seq<Completion>, calls: seq<Call>, id: nat)
    ensures CountCompleted(completed + AllLost(calls), id) == CountCompleted(completed, id) + CountPending(calls, id)
    decreases calls
  {
    if calls == [] {
      assert completed + AllLost(calls) == completed;
    } else {
      var first := Completion(calls[0], Lost);
      assert completed + AllLost(calls) == (completed + [first]) + AllLost(calls[1..]);
      LostMore(completed + [first], calls[1..], id);
      CompletedMore(completed, first, id);
    }
  }

  /** Accepting a command is the only step that adds to the times it is accounted for. */
  lemma StepCounts(s: State, input: Input, id: nat)
    requires Inv(s)
    ensures Step(s, input).nextId == s.nextId + (if input.Accept? && s.serving then 1 else 0)
    ensures Times(Step(s, input), id) == Times(s, id) + (if input.Accept? && s.serving && id == s.nextId then 1 else 0)
  {
    match input
    case Accept(asked, fate) => if s.serving { AcceptCounts(s, asked, fate, id); }
    case PluginReads => if s.serving && s.toPlugin != [] { ReadCounts(s, id); }
    case PluginBreaks => LostMore(s.completed, s.pending, id);
    case _ =>
  }

  lemma AcceptCounts(s: State, asked: string, fate: Fate, id: nat)
    requires Inv(s) && s.serving
    ensures Times(OnAccept(s, asked, fate), id) == Times(s, id) + (if id == s.nextId then 1 else 0)
  {
    var call := Call(s.nextId, asked);
    match fate
    case LocalError => CompletedMore(s.completed, Completion(call, Refused), id);
    case WriteFails =>
      CompletedMore(s.completed, Completion(call, Lost), id);
      LostMore(s.completed + [Completion(call, Lost)], s.pending, id);
    case _ => PendingMore(s.pending, call, id);
  }

  lemma ReadCounts(s: State, id: nat)
    requires Inv(s) && s.serving && s.toPlugin != []
    ensures Times(OnRead(s), id) == Times(s, id)
  {
    if s.toPlugin[0].Result? {
      ReadCompletesFirst(s);
      CompletedMore(s.completed, Completion(s.pending[0], Answered(s.pending[0].asked)), id);
    }
  }

  // ------------------------------------------------------------------------------------
  // Answers are one's own, and in order

  predicate AnswersOwn(completed: seq<Completion>) {
    forall i :: 0 <= i < |completed| && completed[i].done.Answered? ==> completed[i].done.answer == completed[i].call.asked
  }

  /** Commands were answered in the order of their ids, and those answered came before those
      still pending. */
  predicate AnswersInOrder(completed: seq<Completion>, pending: seq<Call>) {
    && (forall i, j :: 0 <= i < j < |completed| && completed[i].done.Answered? && completed[j].done.Answered? ==>
          completed[i].call.id < completed[j].call.id)
    && (forall i, j :: 0 <= i < |completed| && 0 <= j < |pending| && completed[i].done.Answered? ==>
          completed[i].call.id < pending[j].id)
  }

  predicate AnsweredBelow(s: State) {
    forall i :: 0 <= i < |s.completed| && s.completed[i].done.Answered? ==> s.completed[i].call.id < s.nextId
  }

  predicate Answering(s: State) {
    AnswersOwn(s.completed) && AnswersInOrder(s.completed, s.pending) && AnsweredBelow(s)
  }

  lemma ReadAnswers(s: State)
    requires Inv(s) && Answering(s) && s.serving && s.toPlugin != []
    ensures Answering(OnRead(s))
  {
    if s.toPlugin[0].Result? {
      ReadCompletesFirst(s);
    }
  }

  lemma BreakAnswers(s: State)
    requires Answering(s)
    ensures Answering(BreakOff(s))
  {
    assert forall i :: |s.completed| <= i < |BreakOff(s).completed| ==> BreakOff(s).completed[i].done.Lost?;
  }

  lemma UnansweredMore(s: State, c: Completion)
    requires Answering(s) && !c.done.Answered?
    ensures Answering(s.(nextId := s.nextId + 1, completed := s.completed + [c]))
  {
  }

  lemma PendingBelow(s: State, call: Call)
    requires Answering(s) && call.id == s.nextId
    ensures Answering(s.(nextId := s.nextId + 1, pending := s.pending + [call]))
  {
  }

  lemma AcceptAnswers(s: State, asked: string, fate: Fate)
    requires Answering(s)
    ensures Answering(OnAccept(s, asked, fate))
  {
    var call := Call(s.nextId, asked);
    match fate
    case LocalError => UnansweredMore(s, Completion(call, Refused));
    case WriteFails =>
      UnansweredMore(s, Completion(call, Lost));
      BreakAnswers(s.(nextId := s.nextId + 1, completed := s.completed + [Completion(call, Lost)]));
    case _ => PendingBelow(s, call);
  }

  lemma StepAnswers(s: State, input: Input)
    requires Inv(s) && Answering(s)
    ensures Answering(Step(s, input))
  {
    match input
    case Accept(asked, fate) => if s.serving { AcceptAnswers(s, asked, fate); }
    case PluginReads => if s.serving && s.toPlugin != [] { ReadAnswers(s); }
    case PluginBreaks => BreakAnswers(s);
    case _ =>
  }

  // ------------------------------------------------------------------------------------
  // Every run

  ghost predicate Accounted(s: State) {
    s.nextId > 0 && forall id: nat :: Times(s, id) == if 0 < id < s.nextId then 1 else 0
  }

  lemma StepAccounts(s: State, input: Input)
    requires Inv(s) && Accounted(s)
    ensures Accounted(Step(s, input))
  {
    forall id: nat ensures Times(Step(s, input), id) == if 0 < id < Step(s, input).nextId then 1 else 0 {
      StepCounts(s, input, id);
    }
    StepCounts(s, input, 0);
  }

  lemma {:induction false} StepsKeep(s: State, inputs: seq<Input>)
    requires Inv(s) && Answering(s) && Accounted(s)
    ensures var t := Steps(s, inputs); Inv(t) && Answering(t) && Accounted(t)
    decreases inputs
  {
    if inputs != [] {
      StepKeeps(s, inputs[0]);
      StepAnswers(s, inputs[0]);
      StepAccounts(s, inputs[0]);
      StepsKeep(Step(s, inputs[0]), inputs[1..]);
    }
  }

  /** However the two sides interleave and wherever the connection breaks: every accepted
      command is pending or completed, once; an answer is the answer to what its own command
      asked; answers come in the order of the commands; and once the plugin's loop has ended,
      every accepted command is completed exactly once. */
  lemma CompletedExactlyOnce(inputs: seq<Input>, id: nat)
    ensures var s := Steps(Connected, inputs);
            && Times(s, id) == (if 0 < id < s.nextId then 1 else 0)
            && AnswersOwn(s.completed) && AnswersInOrder(s.completed, s.pending)
            && (!s.serving ==> CountCompleted(s.completed, id) == if 0 < id < s.nextId then 1 else 0)
  {
    StepsKeep(Connected, inputs);
  }

  // ------------------------------------------------------------------------------------
  // How each command is completed

  /** An input that ends the plugin's loop. */
  predicate EndsLoop(input: Input) {
    input.PluginBreaks? || (input.Accept? && input.fate.WriteFails?)
  }

  /** The plugin serves exactly until the connection breaks or a write fails. */
  lemma {:induction false} ServesExactly(s: State, inputs: seq<Input>)
    ensures Steps(s, inputs).serving <==> s.serving && forall i :: 0 <= i < |inputs| ==> !EndsLoop(inputs[i])
    decreases inputs
  {
    if inputs != [] {
      ServesExactly(Step(s, inputs[0]), inputs[1..]);
      assert Step(s, inputs[0]).serving <==> s.serving && !EndsLoop(inputs[0]);
      assert forall i :: 0 <= i < |inputs| - 1 ==> inputs[1..][i] == inputs[i + 1];
      assert forall i :: 0 < i < |inputs| ==> inputs[i] == inputs[1..][i - 1];
    }
  }

  predicate NoneLost(completed: seq<Completion>) {
    forall i :: 0 <= i < |completed| ==> !completed[i].done.Lost?
  }

  /** While the plugin serves, no command is lost. */
  lemma {:induction false} NoneLostServing(s: State, inputs: seq<Input>)
    requires s.serving ==> NoneLost(s.completed)
    ensures Steps(s, inputs).serving ==> NoneLost(Steps(s, inputs).completed)
    decreases inputs
  {
    if inputs != [] {
      StepLosesNone(s, inputs[0]);
      NoneLostServing(Step(s, inputs[0]), inputs[1..]);
    }
  }

  lemma StepLosesNone(s: State, input: Input)
    requires s.serving ==> NoneLost(s.completed)
    ensures Step(s, input).serving ==> NoneLost(Step(s, input).completed)
  {
  }

  /** How often a command was refused for its file. */
  function Refusals(completed: seq<Completion>, call: Call): nat {
    multiset(completed)[Completion(call, Refused)]
  }

  /** Only accepting a command refuses it. */
  lemma StepRefuses(s: State, input: Input, call: Call)
    ensures Refusals(Step(s, input).completed, call) == Refusals(s.completed, call)
              + if s.serving && input.Accept? && input.fate.LocalError? && call == Call(s.nextId, input.asked) then 1 else 0
    ensures Step(s, input).nextId >= s.nextId
  {
    assert forall calls :: multiset(AllLost(calls))[Completion(call, Refused)] == 0 by {
      forall calls ensures Completion(call, Refused) !in AllLost(calls) {
      }
    }
  }

  lemma {:induction false} LaterRefuseOthers(s: State, inputs: seq<Input>, call: Call)
    requires call.id < s.nextId
    ensures Refusals(Steps(s, inputs).completed, call) == Refusals(s.completed, call)
    decreases inputs
  {
    hide Refusals, Step;
    if inputs != [] {
      StepRefuses(s, inputs[0], call);
      LaterRefuseOthers(Step(s, inputs[0]), inputs[1..], call);
    }
  }

  predicate NoneRefusedFrom(s: State) {
    forall i :: 0 <= i < |s.completed| && s.completed[i].done.Refused? ==> s.completed[i].call.id < s.nextId
  }

  lemma StepRefusesBelow(s: State, input: Input)
    requires NoneRefusedFrom(s)
    ensures NoneRefusedFrom(Step(s, input))
  {
  }

  lemma {:induction false} RefusesBelow(s: State, inputs: seq<Input>)
    requires NoneRefusedFrom(s)
    ensures NoneRefusedFrom(Steps(s, inputs))
    decreases inputs
  {
    if inputs != [] {
      StepRefusesBelow(s, inputs[0]);
      RefusesBelow(Step(s, inputs[0]), inputs[1..]);
    }
  }

  /**
    What becomes of the command accepted by the input at `i`, however the run goes on: it is refused
    exactly if its file cannot be read; and nothing is completed as lost while the plugin serves,
    which it does until the connection breaks or a write fails.
   */
  lemma RefusedExactly(inputs: seq<Input>, i: nat)
    requires i < |inputs| && inputs[i].Accept? && Steps(Connected, inputs[..i]).serving
    ensures var call := Call(Steps(Connected, inputs[..i]).nextId, inputs[i].asked);
            Refusals(Steps(Connected, inputs).completed, call) == if inputs[i].fate.LocalError? then 1 else 0
    ensures Steps(Connected, inputs).serving <==> forall k :: 0 <= k < |inputs| ==> !EndsLoop(inputs[k])
    ensures Steps(Connected, inputs).serving ==> NoneLost(Steps(Connected, inputs).completed)
  {
    ServesExactly(Connected, inputs);
    NoneLostServing(Connected, inputs);
    RefusesBelow(Connected, inputs[..i]);
    var s := Steps(Connected, inputs[..i]);
    var call := Call(s.nextId, inputs[i].asked);
    StepRefuses(s, inputs[i], call);
    InTwo(Connected, inputs, i);
    assert Refusals(s.completed, call) == 0 by {
      if Completion(call, Refused) in s.completed {
        assert false;
      }
    }
    hide Refusals;
    LaterRefuseOthers(Step(s, inputs[i]), inputs[i + 1..], call);
  }

  lemma {:induction false} InTwo(s: State, inputs: seq<Input>, i: nat)
    requires i < |inputs|
    ensures Steps(s, inputs) == Steps(Step(Steps(s, inputs[..i]), inputs[i]), inputs[i + 1..])
    ensures Steps(s, inputs[..i]).serving && inputs[i].Accept? ==>
              Step(Steps(s, inputs[..i]), inputs[i]).nextId == Steps(s, inputs[..i]).nextId + 1
    decreases i
  {
    if i == 0 {
      assert inputs[..0] == [];
    } else {
      assert inputs[..i][0] == inputs[0] && inputs[..i][1..] == inputs[1..][..i - 1] && inputs[1..][i..] == inputs[i + 1..];
      InTwo(Step(s, inputs[0]), inputs[1..], i - 1);
    }
  }

  /** Once the daemon's end has broken, nothing more comes: what the plugin can still read is what
      was on the wire. */
  lemma {:induction false} NothingMoreComes(s: State, inputs: seq<Input>) returns (read: nat)
    requires !s.daemonUp
    ensures read <= |s.toPlugin| && Steps(s, inputs).toPlugin == s.toPlugin[read..] && !Steps(s, inputs).daemonUp
    decreases inputs
  {
    if inputs == [] {
      read := 0;
    } else {
      var t := Step(s, inputs[0]);
      var one := if |t.toPlugin| < |s.toPlugin| then 1 else 0;
      assert t.toPlugin == s.toPlugin[one..] && !t.daemonUp;
      var more := NothingMoreComes(t, inputs[1..]);
      read := one + more;
      assert s.toPlugin[one..][more..] == s.toPlugin[read..];
    }
  }

  /** So every break of the daemon's end leaves only what was on the wire. */
  lemma OnlyTheWireIsLeft(inputs: seq<Input>, more: seq<Input>) returns (read: nat)
    ensures var s := Steps(Connected, inputs);
            read <= |s.toPlugin| && Steps(Step(s, DaemonBreaks), more).toPlugin == s.toPlugin[read..]
  {
    read := NothingMoreComes(Step(Steps(Connected, inputs), DaemonBreaks), more);
  }
}
