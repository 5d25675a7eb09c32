/**
  From the dispatch of a message to its acknowledgement, over connections that may break at
  any step: the daemon's registry, the socket both ways, the plugin's channel of events
  (crates/silta-claude/src/daemon.rs, `serve` and `run`), the pump that hands notifications to
  Claude Code and then acknowledges (crates/silta-claude/src/mcp.rs), and the acknowledgements
  on their way back, possibly on a later connection than the event came by.
 */
module EndToEnd {
  import opened Prelude
  import opened Backlogs
  import opened Replay
  import opened Delivery

  /** `queued`, `down` and `up` are, per connection, what the daemon has yet to write, the
      events on the wire and the acknowledgements on the wire. */
  datatype World = World(
    reg: Registry,
    queued: map<nat, seq<Item>>,
    down: map<nat, seq<Item>>,
    up: map<nat, seq<string>>,
    link: Option<nat>,
    inbox: seq<Item>,
    acks: seq<string>,
    pumping: bool,
    notified: seq<Item>)

  datatype Event =
    | InDaemon(input: Input)
    | Write(c: nat)
    | Break(c: nat)
    | Attach(c: nat)
    | Detach
    | Receive
    | Notify(ok: bool)
    | SendAck
    | TakeAck(c: nat)

  function At<T>(m: map<nat, seq<T>>, c: nat): seq<T> {
    if c in m then m[c] else []
  }

  function Add<T>(m: map<nat, seq<T>>, c: nat, items: seq<T>): map<nat, seq<T>> {
    m[c := At(m, c) + items]
  }

  /** A section of the daemon other than an acknowledgement: what it hands to a connection is
      queued for writing. */
  function InDaemonStep(w: World, input: Input): World {
    var reg := Section(w.reg, input);
    match input
    case Ack(_, _) => w
    case Adopt(c) =>
      if c < |w.reg.conns| && w.reg.conns[c].Drained? then
        w.(reg := reg, queued := Add(w.queued, c, w.reg.conns[c].hand))
      else w
    case Dispatch(ts, id, room, fate) =>
      if w.reg.claim.Some? && fate.Accepted? then
        w.(reg := reg, queued := Add(w.queued, w.reg.claim.value, [Last(reg.dispatched)]))
      else w.(reg := reg)
    case _ => w.(reg := reg)
  }

  function Go(w: World, e: Event): World {
    match e
    case InDaemon(input) => InDaemonStep(w, input)
    case Write(c) =>
      var items := At(w.queued, c);
      if items == [] then w
      else w.(queued := w.queued[c := items[1..]], down := Add(w.down, c, [items[0]]))
    case Break(c) => w.(queued := w.queued[c := []], down := w.down[c := []], up := w.up[c := []])
    case Attach(c) => w.(link := Some(c))
    case Detach => w.(link := None)
    case Receive =>
      if w.link.None? || At(w.down, w.link.value) == [] then w
      else
        var items := At(w.down, w.link.value);
        w.(down := w.down[w.link.value := items[1..]], inbox := w.inbox + [items[0]])
    case Notify(ok) =>
      if !w.pumping || w.inbox == [] then w
      else if !ok then w.(pumping := false)
      else w.(inbox := w.inbox[1..], notified := w.notified + [w.inbox[0]], acks := w.acks + [w.inbox[0].item.id])
    case SendAck =>
      if w.acks == [] then w
      else if w.link.None? then w.(acks := w.acks[1..])
      else w.(acks := w.acks[1..], up := Add(w.up, w.link.value, [w.acks[0]]))
    case TakeAck(c) =>
      var ids := At(w.up, c);
      if ids == [] || c >= |w.reg.conns| || !w.reg.conns[c].Live? then w
      else w.(up := w.up[c := ids[1..]], reg := Section(w.reg, Ack(c, ids[0])))
  }

  function GoAll(w: World, events: seq<Event>): World
    decreases events
  {
    if events == [] then w else GoAll(Go(w, events[0]), events[1..])
  }

  predicate Initially(w: World) {
    && Delivery.Initially(w.reg) && w.queued == map[] && w.down == map[] && w.up == map[]
    && w.inbox == [] && w.acks == [] && w.notified == []
  }

  // ------------------------------------------------------------------------------------

  /** Claude Code was handed a notification of an event with this id. */
  predicate WasNotified(notified: seq<Item>, id: string) {
    exists i :: 0 <= i < |notified| && notified[i].item.id == id
  }

  predicate AllNotified(notified: seq<Item>, ids: seq<string>) {
    forall i :: 0 <= i < |ids| ==> WasNotified(notified, ids[i])
  }

  predicate WireEarned(notified: seq<Item>, up: map<nat, seq<string>>) {
    forall c :: c in up ==> AllNotified(notified, up[c])
  }

  predicate RegistryEarned(notified: seq<Item>, r: Registry) {
    && (forall c :: 0 <= c < |r.conns| && r.conns[c].Acking? ==> WasNotified(notified, r.conns[c].item.item.id))
    && (forall i :: 0 <= i < |r.acked| ==> WasNotified(notified, r.acked[i].item.id))
  }

  /** Every acknowledgement, wherever it has got to, is of an event that was notified. */
  predicate AcksEarned(w: World) {
    AllNotified(w.notified, w.acks) && WireEarned(w.notified, w.up) && RegistryEarned(w.notified, w.reg)
  }

  lemma NotifiedGrows(notified: seq<Item>, item: Item, id: string)
    ensures WasNotified(notified + [item], id) <==> WasNotified(notified, id) || id == item.item.id
  {
    var longer := notified + [item];
    assert longer[|notified|] == item;
    assert forall i :: 0 <= i < |notified| ==> longer[i] == notified[i];
  }

  /** Only an acknowledgement taken from the wire puts an event under acknowledgement. */
  lemma SectionEarned(r: Registry, input: Input, notified: seq<Item>)
    requires RegistryEarned(notified, r)
    requires input.Ack? ==> WasNotified(notified, input.id)
    ensures RegistryEarned(notified, Section(r, input))
  {
    hide WasNotified, Pushed, Restored, DropExpired, SetMark, Front;
    match input
    case Dispatch(_, _, _, _) =>
    case Enqueue(_, _) =>
    case Connect =>
    case Drain(_, _) =>
    case Adopt(_) =>
    case Ack(_, _) =>
    case SetMarkOf(_) =>
    case Release(_) =>
    case Collect(_) =>
    case GiveBack(_, _) =>
  }

  lemma NotifyEarned(w: World, ok: bool)
    requires AcksEarned(w)
    ensures AcksEarned(Go(w, Notify(ok)))
  {
    if w.pumping && w.inbox != [] && ok {
      forall id ensures WasNotified(w.notified + [w.inbox[0]], id)
                        <==> WasNotified(w.notified, id) || id == w.inbox[0].item.id
      {
        NotifiedGrows(w.notified, w.inbox[0], id);
      }
    }
  }

  lemma SendAckEarned(w: World)
    requires AcksEarned(w)
    ensures AcksEarned(Go(w, SendAck))
  {
    var v := Go(w, SendAck);
    if w.acks != [] && w.link.Some? {
      forall c | c in v.up ensures AllNotified(w.notified, v.up[c]) {
        if c == w.link.value {
          assert v.up[c] == At(w.up, c) + [w.acks[0]];
        }
      }
    }
  }

  lemma BreakEarned(w: World, c: nat)
    requires AcksEarned(w)
    ensures AcksEarned(Go(w, Break(c)))
  {
    hide RegistryEarned;
  }

  lemma TakeAckEarned(w: World, c: nat)
    requires AcksEarned(w)
    ensures AcksEarned(Go(w, TakeAck(c)))
  {
    if At(w.up, c) != [] {
      assert WasNotified(w.notified, At(w.up, c)[0]);
      SectionEarned(w.reg, Ack(c, At(w.up, c)[0]), w.notified);
    }
    hide RegistryEarned, Section, WasNotified;
  }

  lemma GoEarned(w: World, e: Event)
    requires AcksEarned(w)
    ensures AcksEarned(Go(w, e))
  {
    hide RegistryEarned, WireEarned, AllNotified, Section;
    match e
    case InDaemon(input) =>
      if !input.Ack? { SectionEarned(w.reg, input, w.notified); }
    case Notify(ok) => NotifyEarned(w, ok);
    case SendAck => SendAckEarned(w);
    case TakeAck(c) => TakeAckEarned(w, c);
    case Break(c) => BreakEarned(w, c);
    case _ =>
  }

  // ------------------------------------------------------------------------------------
  // What is notified was dispatched

  predicate AllDispatched(r: Registry, items: seq<Item>) {
    forall i :: 0 <= i < |items| ==> items[i] in r.dispatched
  }

  predicate Known(r: Registry, m: map<nat, seq<Item>>) {
    forall c :: c in m ==> AllDispatched(r, m[c])
  }

  predicate Provenance(w: World) {
    && Known(w.reg, w.queued) && Known(w.reg, w.down)
    && AllDispatched(w.reg, w.inbox) && AllDispatched(w.reg, w.notified)
  }

  /** The registry is as its own runs leave it. */
  ghost predicate Sound(r: Registry) {
    && (forall x :: Places(r, x) == Count(r.dispatched, x))
    && ClaimAgrees(r) && Numbered(r) && MarksTell(r.marks, Told(r.acked))
  }

  lemma SectionSound(r: Registry, input: Input)
    requires Sound(r)
    ensures Sound(Section(r, input))
  {
    forall x ensures Places(Section(r, input), x) == Count(Section(r, input).dispatched, x) {
      SectionConserves(r, input, x);
    }
    SectionKeepsClaim(r, input);
    SectionKeepsMarks(r, input);
  }

  /** Nothing dispatched is forgotten. */
  predicate Remembers(r: Registry, s: Registry) {
    forall x :: x in r.dispatched ==> x in s.dispatched
  }

  lemma SectionRemembers(r: Registry, input: Input)
    ensures Remembers(r, Section(r, input))
    ensures input.Dispatch? ==> Section(r, input).dispatched != [] && AllDispatched(Section(r, input), [Last(Section(r, input).dispatched)])
  {
    if !input.Dispatch? {
      SameDispatched(r, input);
    }
  }

  lemma StillKnown(r: Registry, s: Registry, m: map<nat, seq<Item>>, items: seq<Item>)
    requires Remembers(r, s)
    ensures Known(r, m) ==> Known(s, m)
    ensures AllDispatched(r, items) ==> AllDispatched(s, items)
  {
  }

  /** What a connection holds was dispatched. */
  lemma InHandDispatched(r: Registry, c: nat)
    requires Sound(r) && c < |r.conns|
    ensures AllDispatched(r, r.conns[c].InHand())
  {
    var hand := r.conns[c].InHand();
    forall i | 0 <= i < |hand| ensures hand[i] in r.dispatched {
      HeldIsDispatched(r, c, hand[i]);
    }
  }

  lemma HeldIsDispatched(r: Registry, c: nat, x: Item)
    requires Places(r, x) == Count(r.dispatched, x) && c < |r.conns| && x in r.conns[c].InHand()
    ensures x in r.dispatched
  {
    HandsUpdated(r.conns, c, Gone, x);
    assert CountInHands(r.conns, x) >= Count(r.conns[c].InHand(), x) > 0;
  }

  lemma AddKnown(r: Registry, m: map<nat, seq<Item>>, c: nat, items: seq<Item>)
    requires Known(r, m) && AllDispatched(r, items)
    ensures Known(r, Add(m, c, items))
  {
  }

  lemma InDaemonKnown(w: World, input: Input)
    requires Provenance(w) && Sound(w.reg)
    ensures Provenance(Go(w, InDaemon(input)))
  {
    var reg := Section(w.reg, input);
    SectionRemembers(w.reg, input);
    hide Section, Sound, AllDispatched, Known, Add, Remembers;
    StillKnown(w.reg, reg, w.queued, w.inbox);
    StillKnown(w.reg, reg, w.down, w.notified);
    match input
    case Adopt(c) =>
      if c < |w.reg.conns| && w.reg.conns[c].Drained? {
        InHandDispatched(w.reg, c);
        StillKnown(w.reg, reg, w.queued, w.reg.conns[c].hand);
        AddKnown(reg, w.queued, c, w.reg.conns[c].hand);
      }
    case Dispatch(_, _, _, _) =>
      if w.reg.claim.Some? { AddKnown(reg, w.queued, w.reg.claim.value, [Last(reg.dispatched)]); }
    case _ =>
  }

  lemma WriteKnown(w: World, c: nat)
    requires Provenance(w)
    ensures Provenance(Go(w, Write(c)))
  {
    if At(w.queued, c) != [] {
      AddKnown(w.reg, w.down, c, [At(w.queued, c)[0]]);
    }
  }

  lemma TakeAckKnown(w: World, c: nat)
    requires Provenance(w)
    ensures Provenance(Go(w, TakeAck(c)))
  {
    if At(w.up, c) != [] {
      var reg := Section(w.reg, Ack(c, At(w.up, c)[0]));
      SectionRemembers(w.reg, Ack(c, At(w.up, c)[0]));
      hide Section, AllDispatched, Known, Remembers;
      StillKnown(w.reg, reg, w.queued, w.inbox);
      StillKnown(w.reg, reg, w.down, w.notified);
    }
  }

  lemma WireKnown(w: World, e: Event)
    requires Provenance(w) && !e.InDaemon?
    ensures Provenance(Go(w, e))
  {
    hide Section;
    match e
    case Write(c) => WriteKnown(w, c);
    case TakeAck(c) => TakeAckKnown(w, c);
    case Receive =>
    case Notify(_) =>
    case Break(_) =>
    case SendAck =>
    case Attach(_) =>
    case Detach =>
  }

  ghost predicate Inv(w: World) {
    AcksEarned(w) && Sound(w.reg) && Provenance(w)
  }

  lemma GoKeeps(w: World, e: Event)
    requires Inv(w)
    ensures Inv(Go(w, e))
  {
    GoEarned(w, e);
    GoSound(w, e);
    if e.InDaemon? {
      InDaemonKnown(w, e.input);
    } else {
      WireKnown(w, e);
    }
  }

  /** The registry moves by its own sections only. */
  lemma RegistryMoves(w: World, e: Event) returns (input: Option<Input>)
    ensures Go(w, e).reg == if input.Some? then Section(w.reg, input.value) else w.reg
  {
    if e.InDaemon? && !e.input.Ack? {
      return Some(e.input);
    } else if e.TakeAck? && Go(w, e) != w {
      return Some(Ack(e.c, At(w.up, e.c)[0]));
    } else {
      return None;
    }
  }

  lemma GoSound(w: World, e: Event)
    requires Sound(w.reg)
    ensures Sound(Go(w, e).reg)
  {
    var input := RegistryMoves(w, e);
    if input.Some? {
      SectionSound(w.reg, input.value);
    }
  }

  lemma {:induction false} GoAllKeeps(w: World, events: seq<Event>)
    requires Inv(w)
    ensures Inv(GoAll(w, events))
    decreases events
  {
    if events != [] {
      GoKeeps(w, events[0]);
      GoAllKeeps(Go(w, events[0]), events[1..]);
    }
  }

  /** Wherever connections break and however late an acknowledgement travels: an event counts
      as delivered only if Claude Code was handed a notification of its id, and it was handed
      only events that the daemon dispatched. */
  lemma DeliveredMeansNotified(w: World, events: seq<Event>)
    requires Initially(w)
    ensures var v := GoAll(w, events);
            && (forall i :: 0 <= i < |v.reg.acked| ==> WasNotified(v.notified, v.reg.acked[i].item.id))
            && (forall i :: 0 <= i < |v.notified| ==> v.notified[i] in v.reg.dispatched)
  {
    GoAllKeeps(w, events);
  }

  /** A restart that judges a message by the marks takes it as delivered before only if Claude
      Code was handed that event or a later one of its room. */
  lemma OnlyNotifiedAreSkipped(
    w: World, events: seq<Event>, room: string, ts: u64, id: string, startedAt: u64, window: u64)
    requires Initially(w)
    requires Judge(ts, id, MarkIn(GoAll(w, events).reg.marks, room), startedAt, window).AlreadyDelivered?
    ensures var v := GoAll(w, events);
            exists i :: 0 <= i < |v.reg.acked| && v.reg.acked[i].item.room == room && WasNotified(v.notified, v.reg.acked[i].item.id)
                        && (ts < v.reg.acked[i].ts || (ts == v.reg.acked[i].ts && id == v.reg.acked[i].item.id))
  {
    GoAllKeeps(w, events);
    hide GoAll, Provenance, WireEarned, AllNotified, WasNotified, Judge;
    var v := GoAll(w, events);
    RejectedExactly(v.reg.marks, Told(v.reg.acked), room, ts, id, startedAt, window);
    var told := Told(v.reg.acked);
    var i :| 0 <= i < |told| && told[i].room == room
             && (ts < told[i].ts || (ts == told[i].ts && id == told[i].id));
    assert told[i] == Seen(v.reg.acked[i]);
  }

  // ------------------------------------------------------------------------------------
  // A connection that lasts delivers everything

  /** The connection `c` is up at both ends, Claude Code takes notifications, and nothing is on its way. */
  predicate Ready(w: World, c: nat) {
    && w.reg.claim == Some(c) && c < |w.reg.conns| && w.reg.conns[c].Live? && w.reg.inflight == []
    && w.link == Some(c) && w.pumping
    && At(w.queued, c) == [] && At(w.down, c) == [] && At(w.up, c) == [] && w.inbox == [] && w.acks == []
  }

  datatype Sending = Sending(ts: u64, id: string, room: string)

  /** A message on its whole way, and its acknowledgement back. */
  function Way(c: nat, m: Sending): seq<Event> {
    [InDaemon(Dispatch(m.ts, m.id, m.room, Accepted)), Write(c), Receive, Notify(true), SendAck, TakeAck(c), InDaemon(SetMarkOf(c))]
  }

  lemma GoOne(w: World, e: Event, more: seq<Event>)
    ensures GoAll(w, [e] + more) == GoAll(Go(w, e), more)
  {
    assert ([e] + more)[1..] == more;
  }

  lemma GoSeven(w: World, a: Event, b: Event, c: Event, d: Event, e: Event, f: Event, g: Event)
    ensures GoAll(w, [a, b, c, d, e, f, g]) == Go(Go(Go(Go(Go(Go(Go(w, a), b), c), d), e), f), g)
  {
    hide Go;
    assert [a, b, c, d, e, f, g] == [a] + ([b] + ([c] + ([d] + ([e] + ([f] + ([g] + []))))));
    GoOne(w, a, [b] + ([c] + ([d] + ([e] + ([f] + ([g] + []))))));
    var w1 := Go(w, a);
    GoOne(w1, b, [c] + ([d] + ([e] + ([f] + ([g] + [])))));
    var w2 := Go(w1, b);
    GoOne(w2, c, [d] + ([e] + ([f] + ([g] + []))));
    var w3 := Go(w2, c);
    GoOne(w3, d, [e] + ([f] + ([g] + [])));
    var w4 := Go(w3, d);
    GoOne(w4, e, [f] + ([g] + []));
    var w5 := Go(w4, e);
    GoOne(w5, f, [g] + []);
    GoOne(Go(w5, f), g, []);
  }

  /** The message goes down to the plugin. */
  lemma GoesDown(w: World, c: nat, m: Sending, item: Item)
    requires Ready(w, c) && item == Stamped(m.ts, Message(|w.reg.dispatched|, m.id, m.room))
    ensures var v := Go(Go(Go(w, InDaemon(Dispatch(m.ts, m.id, m.room, Accepted))), Write(c)), Receive);
            && v.reg == w.reg.(dispatched := w.reg.dispatched + [item], inflight := [item])
            && At(v.queued, c) == [] && At(v.down, c) == [] && v.up == w.up && v.link == w.link && v.pumping
            && v.inbox == [item] && v.acks == [] && v.notified == w.notified
  {
    var reg := Section(w.reg, Dispatch(m.ts, m.id, m.room, Accepted));
    assert reg == w.reg.(dispatched := w.reg.dispatched + [item], inflight := [item]);
    hide Section;
    var w1 := Go(w, InDaemon(Dispatch(m.ts, m.id, m.room, Accepted)));
    assert w1 == w.(reg := reg, queued := Add(w.queued, c, [item])) && At(w1.queued, c) == [item];
    var w2 := Go(w1, Write(c));
    assert At(w2.queued, c) == [] && At(w2.down, c) == [item];
  }

  /** Claude Code is notified, and the acknowledgement goes up. */
  lemma GoesUp(w: World, c: nat, item: Item)
    requires w.inbox == [item] && w.pumping && w.acks == [] && w.link == Some(c) && At(w.up, c) == []
    ensures var v := Go(Go(w, Notify(true)), SendAck);
            && v.reg == w.reg && v.queued == w.queued && v.down == w.down && v.link == w.link && v.pumping
            && v.inbox == [] && v.acks == [] && v.notified == w.notified + [item] && At(v.up, c) == [item.item.id]
  {
    var w1 := Go(w, Notify(true));
    assert w1.acks == [item.item.id] && w1.acks[1..] == [];
  }

  /** And the daemon takes it. */
  lemma IsAcknowledged(w: World, c: nat, item: Item)
    requires w.reg.claim == Some(c) && c < |w.reg.conns| && w.reg.conns[c].Live? && w.reg.inflight == [item]
    requires At(w.up, c) == [item.item.id]
    ensures var v := Go(Go(w, TakeAck(c)), InDaemon(SetMarkOf(c)));
            && v.reg.claim == Some(c) && c < |v.reg.conns| && v.reg.conns[c].Live? && v.reg.inflight == []
            && v.reg.acked == w.reg.acked + [item] && v.reg.dispatched == w.reg.dispatched && At(v.up, c) == []
            && v.(reg := w.reg, up := w.up) == w
  {
    AcknowledgesExactly(w.reg, c, item.item.id);
    assert w.reg.inflight[0].item.id == item.item.id;
    var s := Section(w.reg, Ack(c, item.item.id));
    assert s.claim == w.reg.claim && s.dispatched == w.reg.dispatched && s.conns[c] == Acking(item);
    var w1 := Go(w, TakeAck(c));
    assert w1.reg == s;
  }

  lemma OneGetsThrough(w: World, c: nat, m: Sending)
    requires Ready(w, c)
    ensures var v, item := GoAll(w, Way(c, m)), Stamped(m.ts, Message(|w.reg.dispatched|, m.id, m.room));
            && Ready(v, c) && v.notified == w.notified + [item] && v.reg.acked == w.reg.acked + [item]
            && v.reg.dispatched == w.reg.dispatched + [item]
  {
    hide Go, GoAll;
    var item := Stamped(m.ts, Message(|w.reg.dispatched|, m.id, m.room));
    GoSeven(w, InDaemon(Dispatch(m.ts, m.id, m.room, Accepted)), Write(c), Receive, Notify(true), SendAck, TakeAck(c), InDaemon(SetMarkOf(c)));
    GoesDown(w, c, m, item);
    var w1 := Go(Go(Go(w, InDaemon(Dispatch(m.ts, m.id, m.room, Accepted))), Write(c)), Receive);
    GoesUp(w1, c, item);
    var w2 := Go(Go(w1, Notify(true)), SendAck);
    IsAcknowledged(w2, c, item);
  }

  function Ways(c: nat, messages: seq<Sending>): seq<Event> {
    if messages == [] then [] else Way(c, messages[0]) + Ways(c, messages[1..])
  }

  function Items(from: nat, messages: seq<Sending>): seq<Item>
    decreases messages
  {
    if messages == [] then []
    else [Stamped(messages[0].ts, Message(from, messages[0].id, messages[0].room))] + Items(from + 1, messages[1..])
  }

  lemma {:induction false} GoInTwo(w: World, a: seq<Event>, b: seq<Event>)
    ensures GoAll(w, a + b) == GoAll(GoAll(w, a), b)
    decreases a
  {
    hide Go;
    if a == [] {
      assert a + b == b;
    } else {
      assert (a + b)[0] == a[0] && (a + b)[1..] == a[1..] + b;
      GoInTwo(Go(w, a[0]), a[1..], b);
    }
  }

  /** Over a connection that lasts, Claude Code is notified of every message once, in order, and every
      one is acknowledged. */
  lemma {:induction false} EveryMessageGetsThrough(w: World, c: nat, messages: seq<Sending>)
    requires Ready(w, c)
    ensures var v, items := GoAll(w, Ways(c, messages)), Items(|w.reg.dispatched|, messages);
            Ready(v, c) && v.notified == w.notified + items && v.reg.acked == w.reg.acked + items
    decreases messages
  {
    hide Go, GoAll, Way, Ready;
    if messages == [] {
      assert GoAll(w, []) == w by { GoNone(w); }
    } else {
      OneGetsThrough(w, c, messages[0]);
      var v := GoAll(w, Way(c, messages[0]));
      GoInTwo(w, Way(c, messages[0]), Ways(c, messages[1..]));
      EveryMessageGetsThrough(v, c, messages[1..]);
    }
  }

  lemma GoNone(w: World)
    ensures GoAll(w, []) == w
  {
  }

  /** When Claude Code does not take a notification, it is handed none from then on. */
  lemma {:induction false} NoneAfterFailure(w: World, events: seq<Event>)
    requires !w.pumping
    ensures var v := GoAll(w, events); !v.pumping && v.notified == w.notified
    decreases events
  {
    if events != [] {
      assert !Go(w, events[0]).pumping && Go(w, events[0]).notified == w.notified by { StillBroken(w, events[0]); }
      hide Go;
      NoneAfterFailure(Go(w, events[0]), events[1..]);
    }
  }

  lemma StillBroken(w: World, e: Event)
    requires !w.pumping
    ensures !Go(w, e).pumping && Go(w, e).notified == w.notified
  {
    hide Section;
  }

  lemma FailureIsFinal(w: World, events: seq<Event>)
    requires w.pumping && w.inbox != []
    ensures GoAll(Go(w, Notify(false)), events).notified == w.notified
  {
    NoneAfterFailure(Go(w, Notify(false)), events);
  }

  // ------------------------------------------------------------------------------------
  // An acknowledgement that finds no connection is lost, and the event comes again

  /** The connection is lost between the notification and its acknowledgement. */
  lemma AckIsLost(w: World, item: Item)
    requires w.inbox == [item] && w.pumping && w.acks == []
    ensures var v := Go(Go(Go(w, Notify(true)), Detach), SendAck);
            v == w.(inbox := [], notified := w.notified + [item], link := None)
  {
    var w1 := Go(w, Notify(true));
    assert w1.acks == [item.item.id] && w1.acks[1..] == [];
  }

  lemma KeptYoung(item: Item, maxAge: u64, now: u64)
    requires Young(item, maxAge, now)
    ensures DropExpired([item], maxAge, now) == [item] && Restored([item], [], BACKLOG_MAX, maxAge, now) == [item]
    ensures Front([item], [item]) == [] && [item] + [] == [item]
  {
    ExpiredMeans(item, maxAge, now);
    assert [item] + [] == [item];
  }

  lemma RegistryEnds(r: Registry, c: nat, item: Item, now: u64)
    requires r.claim == Some(c) && c < |r.conns| && r.conns[c].Live? && r.inflight == [item] && r.backlog == []
    requires Young(item, r.maxAge, now)
    ensures Section(Section(Section(r, Release(c)), Collect(c)), GiveBack(c, now))
            == r.(claim := None, conns := r.conns[c := Gone], inflight := [], backlog := [item])
  {
    KeptYoung(item, r.maxAge, now);
    hide Restored, DropExpired, Front, Young;
    var r1 := Section(r, Release(c));
    assert r1 == r.(claim := None, conns := r.conns[c := Released]);
    var r2 := Section(r1, Collect(c));
    assert r2 == r.(claim := None, conns := r.conns[c := Returning([item])], inflight := []);
    assert r.evicted + [] == r.evicted;
    assert r2.conns[c := Gone] == r.conns[c := Gone];
  }

  /** The handler of a connection ends: what was in flight waits for the next one. */
  lemma HandlerEnds(w: World, c: nat, item: Item, now: u64)
    requires w.reg.claim == Some(c) && c < |w.reg.conns| && w.reg.conns[c].Live? && w.reg.inflight == [item] && w.reg.backlog == []
    requires Young(item, w.reg.maxAge, now)
    ensures var v := Go(Go(Go(w, InDaemon(Release(c))), InDaemon(Collect(c))), InDaemon(GiveBack(c, now)));
            v == w.(reg := w.reg.(claim := None, conns := w.reg.conns[c := Gone], inflight := [], backlog := [item]))
  {
    RegistryEnds(w.reg, c, item, now);
    hide Section;
  }

  lemma RegistryBegins(r: Registry, item: Item, now: u64)
    requires r.claim.None? && r.inflight == [] && r.backlog == [item] && Young(item, r.maxAge, now)
    ensures var n := |r.conns|;
            && Section(r, Connect) == r.(claim := Some(n), conns := r.conns + [Claimed])
            && Section(Section(r, Connect), Drain(n, now)) == r.(claim := Some(n), conns := r.conns + [Drained([item])], backlog := [])
            && Section(Section(Section(r, Connect), Drain(n, now)), Adopt(n))
               == r.(claim := Some(n), conns := r.conns + [Live], inflight := [item], backlog := [])
  {
    KeptYoung(item, r.maxAge, now);
    hide DropExpired, Front, Young, Restored;
    var n := |r.conns|;
    var r1 := Section(r, Connect);
    assert r1 == r.(claim := Some(n), conns := r.conns + [Claimed]);
    var r2 := Section(r1, Drain(n, now));
    assert r.evicted + [] == r.evicted && [] + [item] == [item];
    assert r1.conns[n := Drained([item])] == r.conns + [Drained([item])];
    assert r2.conns[n := Live] == r.conns + [Live];
  }

  /** The next connection takes what waits. */
  lemma HandlerBegins(w: World, item: Item, now: u64)
    requires w.reg.claim.None? && w.reg.inflight == [] && w.reg.backlog == [item] && Young(item, w.reg.maxAge, now)
    ensures var n := |w.reg.conns|;
            var v := Go(Go(Go(w, InDaemon(Connect)), InDaemon(Drain(n, now))), InDaemon(Adopt(n)));
            && v.reg == w.reg.(claim := Some(n), conns := w.reg.conns + [Live], inflight := [item], backlog := [])
            && v == w.(reg := v.reg, queued := Add(w.queued, n, [item]))
  {
    RegistryBegins(w.reg, item, now);
    hide Section;
  }

  lemma NotifiedAgain(w: World, n: nat, item: Item)
    requires At(w.queued, n) == [item] && At(w.down, n) == [] && w.inbox == [] && w.pumping
    ensures var v := Go(Go(Go(Go(w, Attach(n)), Write(n)), Receive), Notify(true));
            v.notified == w.notified + [item] && v.reg == w.reg
  {
    var w2 := Go(Go(w, Attach(n)), Write(n));
    assert At(w2.down, n) == [item];
  }

  /** A message is handed over, its acknowledgement is lost with the connection, and the next one
      begins. */
  function LostWay(c: nat, n: nat, m: Sending, now: u64): seq<Event> {
    [InDaemon(Dispatch(m.ts, m.id, m.room, Accepted)), Write(c), Receive, Notify(true), Detach, SendAck, InDaemon(Release(c)), InDaemon(Collect(c)), InDaemon(GiveBack(c, now)),
     InDaemon(Connect), InDaemon(Drain(n, now)), InDaemon(Adopt(n)), Attach(n), Write(n), Receive, Notify(true)]
  }

  /** The event was notified, and waits again for a connection. */
  predicate IsBack(w: World, v: World, item: Item) {
    && v.reg.claim.None? && v.reg.inflight == [] && v.reg.backlog == [item] && |v.reg.conns| == |w.reg.conns|
    && v.reg.acked == w.reg.acked && v.notified == w.notified + [item]
    && At(v.queued, |w.reg.conns|) == [] && At(v.down, |w.reg.conns|) == [] && v.inbox == [] && v.pumping
  }

  /** The event, with its acknowledgement lost, is back in the backlog. */
  lemma ComesBack(w: World, c: nat, m: Sending, item: Item, now: u64) returns (w1: World, w2: World, w3: World)
    requires Ready(w, c) && w.reg.backlog == [] && Young(item, w.reg.maxAge, now)
    requires item == Stamped(m.ts, Message(|w.reg.dispatched|, m.id, m.room))
    requires At(w.queued, |w.reg.conns|) == [] && At(w.down, |w.reg.conns|) == []
    ensures w1 == Go(Go(Go(w, InDaemon(Dispatch(m.ts, m.id, m.room, Accepted))), Write(c)), Receive)
    ensures w2 == Go(Go(Go(w1, Notify(true)), Detach), SendAck)
    ensures w3 == Go(Go(Go(w2, InDaemon(Release(c))), InDaemon(Collect(c))), InDaemon(GiveBack(c, now)))
    ensures IsBack(w, w3, item) && w3.reg.maxAge == w.reg.maxAge
  {
    GoesDown(w, c, m, item);
    OthersStay(w, c, m, |w.reg.conns|);
    w1 := Go(Go(Go(w, InDaemon(Dispatch(m.ts, m.id, m.room, Accepted))), Write(c)), Receive);
    hide Go, Young, At;
    AckIsLost(w1, item);
    w2 := Go(Go(Go(w1, Notify(true)), Detach), SendAck);
    HandlerEnds(w2, c, item, now);
    w3 := Go(Go(Go(w2, InDaemon(Release(c))), InDaemon(Collect(c))), InDaemon(GiveBack(c, now)));
  }

  lemma IsTakenAgain(w0: World, w: World, n: nat, item: Item, now: u64) returns (w4: World)
    requires IsBack(w0, w, item) && Young(item, w.reg.maxAge, now) && n == |w0.reg.conns|
    ensures w4 == Go(Go(Go(w, InDaemon(Connect)), InDaemon(Drain(n, now))), InDaemon(Adopt(n)))
    ensures var v := Go(Go(Go(Go(w4, Attach(n)), Write(n)), Receive), Notify(true));
            v.notified == w0.notified + [item, item] && v.reg.acked == w0.reg.acked
  {
    hide Go, Add, At, Young;
    HandlerBegins(w, item, now);
    w4 := Go(Go(Go(w, InDaemon(Connect)), InDaemon(Drain(n, now))), InDaemon(Adopt(n)));
    Added(w.queued, n, item);
    NotifiedAgain(w4, n, item);
    assert (w0.notified + [item]) + [item] == w0.notified + [item, item];
  }

  /**
    An event whose acknowledgement finds no connection is not counted as delivered, and the next
    connection brings it again, so that Claude Code is notified twice.
   */
  lemma LostAckComesAgain(w: World, c: nat, m: Sending, now: u64)
    requires Ready(w, c) && w.reg.backlog == [] && now - m.ts <= w.reg.maxAge
    requires At(w.queued, |w.reg.conns|) == [] && At(w.down, |w.reg.conns|) == []
    ensures var v, item := GoAll(w, LostWay(c, |w.reg.conns|, m, now)), Stamped(m.ts, Message(|w.reg.dispatched|, m.id, m.room));
            v.notified == w.notified + [item, item] && v.reg.acked == w.reg.acked
  {
    var n := |w.reg.conns|;
    var item := Stamped(m.ts, Message(|w.reg.dispatched|, m.id, m.room));
    assert Young(item, w.reg.maxAge, now);
    hide Go, GoAll, Add, At, Ready, LostWay, Young, IsBack;
    var w1, w2, w3 := ComesBack(w, c, m, item, now);
    var w4 := IsTakenAgain(w, w3, n, item, now);
    LostWayIs(w, w1, w2, w3, w4, c, m, n, now);
  }

  lemma Added(queued: map<nat, seq<Item>>, n: nat, item: Item)
    requires At(queued, n) == []
    ensures At(Add(queued, n, [item]), n) == [item]
  {
  }

  lemma OthersStay(w: World, c: nat, m: Sending, n: nat)
    requires Ready(w, c) && n != c && At(w.queued, n) == [] && At(w.down, n) == []
    ensures var v := Go(Go(Go(w, InDaemon(Dispatch(m.ts, m.id, m.room, Accepted))), Write(c)), Receive);
            At(v.queued, n) == [] && At(v.down, n) == []
  {
    hide Section;
  }

  lemma GoThree(w: World, a: Event, b: Event, c: Event, more: seq<Event>)
    ensures GoAll(w, [a, b, c] + more) == GoAll(Go(Go(Go(w, a), b), c), more)
  {
    hide Go;
    assert [a, b, c] + more == [a] + ([b] + ([c] + more));
    GoOne(w, a, [b] + ([c] + more));
    GoOne(Go(w, a), b, [c] + more);
    GoOne(Go(Go(w, a), b), c, more);
  }

  lemma LostWayIs(w: World, w1: World, w2: World, w3: World, w4: World, c: nat, m: Sending, n: nat, now: u64)
    requires w1 == Go(Go(Go(w, InDaemon(Dispatch(m.ts, m.id, m.room, Accepted))), Write(c)), Receive)
    requires w2 == Go(Go(Go(w1, Notify(true)), Detach), SendAck)
    requires w3 == Go(Go(Go(w2, InDaemon(Release(c))), InDaemon(Collect(c))), InDaemon(GiveBack(c, now)))
    requires w4 == Go(Go(Go(w3, InDaemon(Connect)), InDaemon(Drain(n, now))), InDaemon(Adopt(n)))
    ensures GoAll(w, LostWay(c, n, m, now))
            == Go(Go(Go(Go(w4, Attach(n)), Write(n)), Receive), Notify(true))
  {
    hide Go, GoAll;
    var last := [Attach(n), Write(n), Receive] + [Notify(true)];
    var begins := [InDaemon(Connect), InDaemon(Drain(n, now)), InDaemon(Adopt(n))] + last;
    var ends := [InDaemon(Release(c)), InDaemon(Collect(c)), InDaemon(GiveBack(c, now))] + begins;
    var lost := [Notify(true), Detach, SendAck] + ends;
    assert LostWay(c, n, m, now) == [InDaemon(Dispatch(m.ts, m.id, m.room, Accepted)), Write(c), Receive] + lost;
    GoThree(w, InDaemon(Dispatch(m.ts, m.id, m.room, Accepted)), Write(c), Receive, lost);
    GoThree(w1, Notify(true), Detach, SendAck, ends);
    GoThree(w2, InDaemon(Release(c)), InDaemon(Collect(c)), InDaemon(GiveBack(c, now)), begins);
    GoThree(w3, InDaemon(Connect), InDaemon(Drain(n, now)), InDaemon(Adopt(n)), last);
    GoThree(w4, Attach(n), Write(n), Receive, [Notify(true)]);
    var v := Go(Go(Go(w4, Attach(n)), Write(n)), Receive);
    GoOne(v, Notify(true), []);
    GoNone(Go(v, Notify(true)));
    assert [Notify(true)] + [] == [Notify(true)];
  }

  // ------------------------------------------------------------------------------------
  // Events arrive in the order in which a connection was handed them

  /** What Claude Code was notified of, and what is on its way to it over the connection `c`. */
  function Stream(w: World, c: nat): seq<Item> {
    w.notified + (w.inbox + (At(w.down, c) + At(w.queued, c)))
  }

  /** What the daemon hands to the connection `c` at this step. */
  function Handed(w: World, e: Event, c: nat): seq<Item> {
    if !e.InDaemon? then []
    else match e.input
      case Adopt(d) => if d == c && c < |w.reg.conns| && w.reg.conns[c].Drained? then w.reg.conns[c].hand else []
      case Dispatch(ts, id, room, fate) =>
        if w.reg.claim == Some(c) && fate.Accepted? then [Stamped(ts, Message(|w.reg.dispatched|, id, room))] else []
      case _ => []
  }

  /** The plugin stays with the connection `c`, and it does not break. */
  predicate Lasts(e: Event, c: nat) {
    !e.Attach? && !e.Detach? && e != Break(c)
  }

  lemma Regrouped(a: seq<Item>, b: seq<Item>, c: seq<Item>, d: seq<Item>, x: seq<Item>)
    ensures a + (b + (c + (d + x))) == (a + (b + (c + d))) + x
    ensures (a + x) + (b + (c + d)) == a + ((x + b) + (c + d))
    ensures a + ((b + x) + (c + d)) == a + (b + ((x + c) + d))
    ensures a + (b + ((c + x) + d)) == a + (b + (c + (x + d)))
  {
  }

  lemma Cons(items: seq<Item>)
    requires items != []
    ensures [items[0]] + items[1..] == items
  {
  }

  lemma DispatchLast(r: Registry, ts: u64, id: string, room: string, fate: Fate)
    ensures var s := Section(r, Dispatch(ts, id, room, fate));
            s.dispatched != [] && Last(s.dispatched) == Stamped(ts, Message(|r.dispatched|, id, room))
  {
  }

  lemma DaemonQueues(w: World, input: Input, c: nat)
    ensures var v := Go(w, InDaemon(input));
            && v.notified == w.notified && v.inbox == w.inbox && v.down == w.down && v.link == w.link
            && At(v.queued, c) == At(w.queued, c) + Handed(w, InDaemon(input), c)
  {
    if input.Dispatch? {
      DispatchLast(w.reg, input.ts, input.id, input.room, input.fate);
    }
    hide Section;
    assert At(w.queued, c) + [] == At(w.queued, c);
  }

  lemma DaemonStreams(w: World, input: Input, c: nat)
    ensures Stream(Go(w, InDaemon(input)), c) == Stream(w, c) + Handed(w, InDaemon(input), c)
    ensures Go(w, InDaemon(input)).link == w.link
  {
    DaemonQueues(w, input, c);
    hide Go, Handed, At;
    Regrouped(w.notified, w.inbox, At(w.down, c), At(w.queued, c), Handed(w, InDaemon(input), c));
  }

  lemma WriteStreams(w: World, d: nat, c: nat)
    ensures Stream(Go(w, Write(d)), c) == Stream(w, c) && Go(w, Write(d)).link == w.link
  {
    if d == c && At(w.queued, c) != [] {
      Cons(At(w.queued, c));
      Regrouped(w.notified, w.inbox, At(w.down, c), At(w.queued, c)[1..], [At(w.queued, c)[0]]);
    }
  }

  lemma ReceiveStreams(w: World, c: nat)
    requires w.link == Some(c)
    ensures Stream(Go(w, Receive), c) == Stream(w, c) && Go(w, Receive).link == w.link
  {
    if At(w.down, c) != [] {
      Cons(At(w.down, c));
      Regrouped(w.notified, w.inbox, At(w.down, c)[1..], At(w.queued, c), [At(w.down, c)[0]]);
    }
  }

  lemma NotifyStreams(w: World, ok: bool, c: nat)
    ensures Stream(Go(w, Notify(ok)), c) == Stream(w, c) && Go(w, Notify(ok)).link == w.link
  {
    if w.inbox != [] {
      Cons(w.inbox);
      Regrouped(w.notified, w.inbox[1..], At(w.down, c), At(w.queued, c), [w.inbox[0]]);
    }
  }

  lemma AcksStream(w: World, e: Event, c: nat)
    requires e.SendAck? || e.TakeAck? || (e.Break? && e.c != c)
    ensures Stream(Go(w, e), c) == Stream(w, c) && Go(w, e).link == w.link
  {
    hide Section;
  }

  lemma StreamStep(w: World, e: Event, c: nat)
    requires w.link == Some(c) && Lasts(e, c)
    ensures Stream(Go(w, e), c) == Stream(w, c) + Handed(w, e, c) && Go(w, e).link == Some(c)
  {
    hide Go, Stream;
    if e.InDaemon? {
      DaemonStreams(w, e.input, c);
    } else {
      assert Stream(w, c) + [] == Stream(w, c);
      if e.Write? {
        WriteStreams(w, e.c, c);
      } else if e.Receive? {
        ReceiveStreams(w, c);
      } else if e.Notify? {
        NotifyStreams(w, e.ok, c);
      } else {
        AcksStream(w, e, c);
      }
    }
  }

  /** Everything the daemon hands to the connection `c` over some steps. */
  function AllHanded(w: World, events: seq<Event>, c: nat): seq<Item>
    decreases events
  {
    if events == [] then [] else Handed(w, events[0], c) + AllHanded(Go(w, events[0]), events[1..], c)
  }

  /**
    While a connection lasts, Claude Code is notified of what was on its way and then of what the
    connection was handed, in that order, skipping none: whatever the steps are, these together are
    what it was notified of and what is still on its way.
   */
  lemma {:induction false} ArrivesInOrder(w: World, events: seq<Event>, c: nat)
    requires w.link == Some(c) && forall i :: 0 <= i < |events| ==> Lasts(events[i], c)
    ensures Stream(GoAll(w, events), c) == Stream(w, c) + AllHanded(w, events, c)
    decreases events
  {
    hide Go, Stream, Handed, Lasts;
    if events == [] {
      assert Stream(w, c) + [] == Stream(w, c);
    } else {
      assert Lasts(events[0], c);
      StreamStep(w, events[0], c);
      ArrivesInOrder(Go(w, events[0]), events[1..], c);
      Associates(Stream(w, c), Handed(w, events[0], c), AllHanded(Go(w, events[0]), events[1..], c));
    }
  }

  /** And after a break of `c`, nothing it carried before arrives any more. */
  lemma BreakLosesTheWire(w: World, events: seq<Event>, c: nat)
    requires w.link == Some(c) && forall i :: 0 <= i < |events| ==> Lasts(events[i], c)
    ensures var v := Go(w, Break(c));
            Stream(GoAll(v, events), c) == w.notified + w.inbox + AllHanded(v, events, c)
  {
    BreakStream(w, c);
    hide Go, Stream, GoAll, AllHanded, Lasts;
    ArrivesInOrder(Go(w, Break(c)), events, c);
  }

  lemma BreakStream(w: World, c: nat)
    ensures Stream(Go(w, Break(c)), c) == w.notified + w.inbox && Go(w, Break(c)).link == w.link
  {
    var v := Go(w, Break(c));
    assert At(v.down, c) == [] && At(v.queued, c) == [];
    assert w.inbox + ([] + []) == w.inbox;
  }
}
