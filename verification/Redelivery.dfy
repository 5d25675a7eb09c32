/**
  The order in which messages come again.

  A section is orderly when a dispatch that has to wait finds no other waiting, a message goes
  straight to a connection only when nothing else is still to come to it, and a connection is
  made only once the one before holds nothing any more. Every orderly run hands the
  unacknowledged messages over again in the order of their dispatch; and every other section
  can be followed by an orderly run after which they do not come in order.
 */
module Redelivery {
  import opened Prelude
  import opened Backlogs
  import opened Delivery

  predicate NoneWaiting(waiting: seq<Option<Item>>) {
    forall d :: 0 <= d < |waiting| ==> waiting[d].None?
  }

  predicate OrderlySection(r: Registry, input: Input) {
    match input
    case Dispatch(_, _, _, fate) =>
      if r.claim.None? || fate.Closed? then NoneWaiting(r.waiting)
      else fate.Accepted? ==> Queue(r) == r.inflight
    case Connect => r.claim.Some? || r.conns == [] || HoldsNothing(Last(r.conns))
    case _ => true
  }

  /** A connection that has nothing more to give back. */
  predicate HoldsNothing(conn: Conn) {
    conn.Gone? || conn == Returning([])
  }

  predicate Orderly(r: Registry, inputs: seq<Input>)
    decreases inputs
  {
    inputs == [] || (OrderlySection(r, inputs[0]) && Orderly(Section(r, inputs[0]), inputs[1..]))
  }

  /** The item of a dispatch in hand, if there is one. */
  function Held(waiting: seq<Option<Item>>): seq<Item> {
    if waiting == [] then [] else Held(Init(waiting)) + (if Last(waiting).Some? then [Last(waiting).value] else [])
  }

  function ConnHand(r: Registry): seq<Item> {
    if r.conns == [] || Last(r.conns).Acking? then [] else Last(r.conns).InHand()
  }

  /** Everything that can still come to the session, in the order it will. */
  function Queue(r: Registry): seq<Item> {
    r.inflight + (ConnHand(r) + (r.backlog + Held(r.waiting)))
  }

  /** In the order of dispatch. */
  predicate InOrder(items: seq<Item>) {
    forall i, j :: 0 <= i < j < |items| ==> items[i].item.no < items[j].item.no
  }

  predicate Below(items: seq<Item>, n: nat) {
    forall i :: 0 <= i < |items| ==> items[i].item.no < n
  }

  predicate OneWaiting(waiting: seq<Option<Item>>) {
    forall c, d :: 0 <= c < d < |waiting| ==> waiting[c].None? || waiting[d].None?
  }

  predicate OneActive(r: Registry) {
    && (forall c :: 0 <= c < |r.conns| - 1 ==> HoldsNothing(r.conns[c]))
    && (r.inflight == [] || (r.conns != [] && !Last(r.conns).Returning? && !Last(r.conns).Gone?))
  }

  predicate Shaped(r: Registry) {
    && ClaimAgrees(r) && (r.claim.Some? ==> r.claim.value < |r.conns|)
    && OneActive(r) && OneWaiting(r.waiting)
  }

  predicate Ordered(items: seq<Item>, n: nat) {
    InOrder(items) && Below(items, n)
  }

  predicate Inv(r: Registry) {
    Shaped(r) && Ordered(Queue(r), |r.dispatched|)
  }

  lemma {:induction false} HeldNone(waiting: seq<Option<Item>>)
    requires NoneWaiting(waiting)
    ensures Held(waiting) == []
  {
    if waiting != [] {
      HeldNone(Init(waiting));
    }
  }

  lemma {:induction false} HeldOne(waiting: seq<Option<Item>>, d: nat)
    requires OneWaiting(waiting) && d < |waiting| && waiting[d].Some?
    ensures Held(waiting) == [waiting[d].value]
    ensures NoneWaiting(waiting[d := None])
  {
    if d == |waiting| - 1 {
      HeldNone(Init(waiting));
    } else {
      HeldOne(Init(waiting), d);
    }
  }

  /** Leaving out a stretch keeps the order. */
  lemma CutKeepsOrder(a: seq<Item>, cut: seq<Item>, b: seq<Item>, n: nat)
    requires Ordered(a + (cut + b), n)
    ensures Ordered(a + b, n)
  {
    var all := a + (cut + b);
    forall i | 0 <= i < |a + b|
      ensures (a + b)[i] == all[if i < |a| then i else i + |cut|]
    {
    }
  }

  lemma TailCut(a: seq<Item>, kept: seq<Item>, all: seq<Item>, b: seq<Item>, n: nat)
    requires IsTail(kept, all) && Ordered(a + (all + b), n)
    ensures Ordered(a + (kept + b), n)
  {
    var front := Front(all, kept);
    assert all + b == front + (kept + b);
    CutKeepsOrder(a, front, kept + b, n);
  }

  lemma OneMoreOrdered(items: seq<Item>, item: Item, n: nat)
    requires Ordered(items, n) && item.item.no == n
    ensures Ordered(items + [item], n + 1)
  {
  }

  lemma HeldMore(waiting: seq<Option<Item>>, item: Item)
    requires NoneWaiting(waiting)
    ensures Held(waiting) == [] && Held(waiting + [Some(item)]) == [item]
  {
    HeldNone(waiting);
    assert Init(waiting + [Some(item)]) == waiting;
  }

  lemma DispatchQueues(r: Registry, ts: u64, id: string, room: string, fate: Fate)
    requires Shaped(r) && OrderlySection(r, Dispatch(ts, id, room, fate))
    ensures var s := OnDispatch(r, ts, id, room, fate);
            Queue(s) == Queue(r) || Queue(s) == Queue(r) + [Last(s.dispatched)]
  {
    hide Shaped, Held;
    var item := Stamped(ts, Message(|r.dispatched|, id, room));
    if r.claim.None? || fate.Closed? {
      HeldMore(r.waiting, item);
      OneMoreLast(r.inflight, ConnHand(r), r.backlog, item);
    } else if fate.Accepted? {
      NothingElse(r.inflight, ConnHand(r), r.backlog, Held(r.waiting));
      NothingElse(r.inflight + [item], ConnHand(r), r.backlog, Held(r.waiting));
    }
  }

  lemma NothingElse(a: seq<Item>, b: seq<Item>, c: seq<Item>, d: seq<Item>)
    ensures a + (b + (c + d)) == a <==> b == [] && c == [] && d == []
  {
    assert |a + (b + (c + d))| == |a| + |b| + |c| + |d|;
  }

  lemma OneMoreLast(a: seq<Item>, b: seq<Item>, c: seq<Item>, item: Item)
    ensures a + (b + (c + [item])) == a + (b + (c + [])) + [item]
  {
  }

  lemma DispatchShaped(r: Registry, ts: u64, id: string, room: string, fate: Fate)
    requires Shaped(r) && OrderlySection(r, Dispatch(ts, id, room, fate))
    ensures Shaped(OnDispatch(r, ts, id, room, fate))
  {
  }

  lemma DispatchOrdered(r: Registry, ts: u64, id: string, room: string, fate: Fate)
    requires Inv(r) && OrderlySection(r, Dispatch(ts, id, room, fate))
    ensures Inv(OnDispatch(r, ts, id, room, fate))
  {
    var s := OnDispatch(r, ts, id, room, fate);
    DispatchShaped(r, ts, id, room, fate);
    DispatchQueues(r, ts, id, room, fate);
    OneMoreOrdered(Queue(r), Last(s.dispatched), |r.dispatched|);
  }

  lemma EnqueueShaped(r: Registry, d: nat, now: u64)
    requires Shaped(r) && d < |r.waiting| && r.waiting[d].Some?
    ensures Shaped(OnEnqueue(r, d, now))
  {
  }

  lemma EnqueueOrdered(r: Registry, d: nat, now: u64)
    requires Inv(r) && d < |r.waiting| && r.waiting[d].Some?
    ensures Inv(OnEnqueue(r, d, now))
  {
    EnqueueShaped(r, d, now);
    HeldOne(r.waiting, d);
    HeldNone(r.waiting[d := None]);
    var item := r.waiting[d].value;
    QueueOfThree(r.inflight, ConnHand(r), r.backlog, item);
    RequeueOrdered(r.inflight + ConnHand(r), r.backlog + [item],
                   Pushed(r.backlog, item, BACKLOG_MAX, r.maxAge, now), Queue(r), |r.dispatched|);
    QueueOfTwo(r.inflight, ConnHand(r), OnEnqueue(r, d, now).backlog);
  }

  lemma QueueOfThree(a: seq<Item>, b: seq<Item>, c: seq<Item>, item: Item)
    ensures a + (b + (c + [item])) == (a + b) + (c + [item])
  {
  }

  lemma QueueOfTwo(a: seq<Item>, b: seq<Item>, c: seq<Item>)
    ensures a + (b + (c + [])) == (a + b) + c
  {
  }

  lemma RequeueOrdered(a: seq<Item>, all: seq<Item>, kept: seq<Item>, queue: seq<Item>, n: nat)
    requires queue == a + all && Ordered(queue, n) && IsTail(kept, all)
    ensures Ordered(a + kept, n)
  {
    assert queue == a + (all + []);
    TailCut(a, kept, all, [], n);
    assert a + (kept + []) == a + kept;
  }

  lemma DrainShaped(r: Registry, c: nat, s: Registry, hand: seq<Item>)
    requires Shaped(r) && c < |r.conns| && r.conns[c].Claimed?
    requires s.claim == r.claim && s.conns == r.conns[c := Drained(hand)]
    requires s.inflight == r.inflight && s.waiting == r.waiting && s.backlog == []
    ensures Shaped(s) && Queue(r) == r.inflight + (r.backlog + Held(r.waiting))
    ensures Queue(s) == r.inflight + (hand + Held(r.waiting))
  {
    assert c == |r.conns| - 1;
  }

  lemma DrainOrdered(r: Registry, c: nat, now: u64)
    requires Inv(r) && c < |r.conns| && r.conns[c].Claimed?
    ensures Inv(OnDrain(r, c, now))
  {
    var kept, held := DropExpired(r.backlog, r.maxAge, now), Held(r.waiting);
    DrainShaped(r, c, OnDrain(r, c, now), kept);
    TailCut(r.inflight, kept, r.backlog, held, |r.dispatched|);
  }

  lemma AckShaped(r: Registry, c: nat, item: Item, rest: seq<Item>)
    requires Shaped(r) && c < |r.conns| && r.conns[c].Live? && r.inflight != []
    ensures Shaped(Moved(r, c, Acking(item)).(inflight := rest))
    ensures ConnHand(r) == [] && ConnHand(Moved(r, c, Acking(item)).(inflight := rest)) == []
  {
    assert c == |r.conns| - 1;
  }

  lemma AckOrdered(r: Registry, c: nat, id: string)
    requires Inv(r) && c < |r.conns| && r.conns[c].Live?
    ensures Inv(OnAck(r, c, id))
  {
    var at := Find(r.inflight, id);
    if at < |r.inflight| {
      var before, after := r.inflight[..at], r.inflight[at + 1..];
      AckShaped(r, c, r.inflight[at], before + after);
      hide Shaped, InOrder, Below, Find, Held;
      OneTaken(r.inflight, at, r.backlog + Held(r.waiting), |r.dispatched|);
    }
  }

  lemma OneTaken(items: seq<Item>, at: nat, rest: seq<Item>, n: nat)
    requires at < |items| && Ordered(items + ([] + rest), n)
    ensures Ordered((items[..at] + items[at + 1..]) + ([] + rest), n)
  {
    hide Ordered;
    assert items + ([] + rest) == items[..at] + ([items[at]] + (items[at + 1..] + rest));
    CutKeepsOrder(items[..at], [items[at]], items[at + 1..] + rest, n);
    assert (items[..at] + items[at + 1..]) + ([] + rest) == items[..at] + (items[at + 1..] + rest);
  }

  lemma GoneShaped(r: Registry, c: nat, s: Registry)
    requires Shaped(r) && c < |r.conns| && r.conns[c].Returning?
    requires s.claim == r.claim && s.conns == r.conns[c := Gone] && s.inflight == r.inflight && s.waiting == r.waiting
    ensures Shaped(s)
    ensures if c == |r.conns| - 1 then r.inflight == [] && ConnHand(r) == r.conns[c].hand && ConnHand(s) == []
            else r.conns[c].hand == [] && ConnHand(s) == ConnHand(r)
  {
  }

  lemma GiveBackOrdered(r: Registry, c: nat, now: u64)
    requires Inv(r) && c < |r.conns| && r.conns[c].Returning?
    ensures Inv(OnGiveBack(r, c, now))
  {
    var s, hand, held := OnGiveBack(r, c, now), r.conns[c].hand, Held(r.waiting);
    GoneShaped(r, c, s);
    if c == |r.conns| - 1 {
      TailKept(hand, r, now);
      hide Shaped, InOrder, Below, Held, Restored;
      GivenBackOrdered(hand, r.backlog, s.backlog, held, |r.dispatched|);
    }
  }

  lemma GivenBackOrdered(hand: seq<Item>, backlog: seq<Item>, kept: seq<Item>, held: seq<Item>, n: nat)
    requires IsTail(kept, hand + backlog) && Ordered([] + (hand + (backlog + held)), n)
    ensures Ordered([] + ([] + (kept + held)), n)
  {
    hide Ordered;
    assert [] + (hand + (backlog + held)) == [] + ((hand + backlog) + held);
    TailCut([], kept, hand + backlog, held, n);
    assert [] + ([] + (kept + held)) == [] + (kept + held);
  }

  lemma TailKept(hand: seq<Item>, r: Registry, now: u64)
    ensures IsTail(r.backlog, [] + r.backlog)
    ensures IsTail(Restored(hand, r.backlog, BACKLOG_MAX, r.maxAge, now), hand + r.backlog)
  {
    assert [] + r.backlog == r.backlog;
  }

  /** The other moves of a connection change where the queue is, not the queue. */
  lemma ConnectOrdered(r: Registry)
    requires Inv(r) && OrderlySection(r, Connect)
    ensures Inv(OnConnect(r))
  {
    assert Queue(OnConnect(r)) == Queue(r);
  }

  lemma AdoptOrdered(r: Registry, c: nat)
    requires Inv(r) && c < |r.conns| && r.conns[c].Drained?
    ensures Inv(OnAdopt(r, c))
  {
    assert c == |r.conns| - 1;
    Regrouped(r.inflight, r.conns[c].hand, r.backlog, Held(r.waiting));
    assert Queue(OnAdopt(r, c)) == Queue(r);
  }

  lemma Regrouped(a: seq<Item>, b: seq<Item>, c: seq<Item>, d: seq<Item>)
    ensures a + (b + (c + d)) == (a + b) + ([] + (c + d))
  {
  }

  lemma SetMarkOrdered(r: Registry, c: nat)
    requires Inv(r) && c < |r.conns| && r.conns[c].Acking?
    ensures Inv(OnSetMark(r, c))
  {
    assert c == |r.conns| - 1;
    assert Queue(OnSetMark(r, c)) == Queue(r);
  }

  lemma ReleaseOrdered(r: Registry, c: nat)
    requires Inv(r) && c < |r.conns| && (r.conns[c].Claimed? || r.conns[c].Live?)
    ensures Inv(OnRelease(r, c))
  {
    assert c == |r.conns| - 1;
    assert Queue(OnRelease(r, c)) == Queue(r);
  }

  lemma CollectOrdered(r: Registry, c: nat)
    requires Inv(r) && c < |r.conns| && r.conns[c].Released?
    ensures Inv(OnCollect(r, c))
  {
    assert c == |r.conns| - 1;
    assert Queue(OnCollect(r, c)) == Queue(r);
  }

  lemma SectionOrdered(r: Registry, input: Input)
    requires Inv(r) && OrderlySection(r, input)
    ensures Inv(Section(r, input))
  {
    match input
    case Dispatch(ts, id, room, fate) => DispatchOrdered(r, ts, id, room, fate);
    case Enqueue(d, now) => if d < |r.waiting| && r.waiting[d].Some? { EnqueueOrdered(r, d, now); }
    case Drain(c, now) => if c < |r.conns| && r.conns[c].Claimed? { DrainOrdered(r, c, now); }
    case Ack(c, id) => if c < |r.conns| && r.conns[c].Live? { AckOrdered(r, c, id); }
    case GiveBack(c, now) => if c < |r.conns| && r.conns[c].Returning? { GiveBackOrdered(r, c, now); }
    case Connect => ConnectOrdered(r);
    case Adopt(c) => if c < |r.conns| && r.conns[c].Drained? { AdoptOrdered(r, c); }
    case SetMarkOf(c) => if c < |r.conns| && r.conns[c].Acking? { SetMarkOrdered(r, c); }
    case Release(c) => if c < |r.conns| && (r.conns[c].Claimed? || r.conns[c].Live?) { ReleaseOrdered(r, c); }
    case Collect(c) => if c < |r.conns| && r.conns[c].Released? { CollectOrdered(r, c); }
  }

  lemma {:induction false} SectionsOrdered(r: Registry, inputs: seq<Input>)
    requires Inv(r) && Orderly(r, inputs)
    ensures Inv(Sections(r, inputs))
    decreases inputs
  {
    if inputs != [] {
      SectionOrdered(r, inputs[0]);
      SectionsOrdered(Section(r, inputs[0]), inputs[1..]);
    }
  }

  lemma {:induction false} GoneHoldNothing(conns: seq<Conn>, x: Item)
    requires forall c :: 0 <= c < |conns| ==> HoldsNothing(conns[c])
    ensures CountInHands(conns, x) == 0
  {
    if conns != [] {
      GoneHoldNothing(Init(conns), x);
    }
  }

  lemma {:induction false} HeldCounts(waiting: seq<Option<Item>>, x: Item)
    ensures CountWaiting(waiting, x) == Count(Held(waiting), x)
  {
    if waiting != [] {
      HeldCounts(Init(waiting), x);
      if Last(waiting).Some? {
        OneMore(Held(Init(waiting)), Last(waiting).value, x);
      }
    }
  }

  /** Where a message is when a connection has just drained the backlog. */
  lemma PlacesAtDrain(s: Registry, c: nat, now: u64, x: Item)
    requires Inv(s) && c < |s.conns| && s.conns[c].Claimed?
    ensures var t := OnDrain(s, c, now);
            Places(t, x) == Count(t.inflight, x) + Count(t.conns[c].hand, x) + Count(Held(s.waiting), x)
                            + Count(t.acked, x) + Count(t.evicted, x) + Count(t.dropped, x)
  {
    var t := OnDrain(s, c, now);
    assert c == |s.conns| - 1;
    assert Init(t.conns) == Init(s.conns);
    GoneHoldNothing(Init(t.conns), x);
    HeldCounts(s.waiting, x);
  }

  /** In an orderly run, after any number of connections came and went, the next one is handed,
      in the order of dispatch and after what was sent to it already, every message that was not
      acknowledged, evicted, dropped for a full queue, or still in the hands of a dispatch; and
      what its draining evicts is older than all it is handed. */
  lemma RedeliveredInOrder(r: Registry, inputs: seq<Input>, c: nat, now: u64)
    requires Initially(r) && Orderly(r, inputs)
    requires var s := Sections(r, inputs); c < |s.conns| && s.conns[c].Claimed?
    ensures var s := Sections(r, inputs);
            var t := OnDrain(s, c, now);
            var hand := t.conns[c].hand;
            && InOrder(t.inflight + hand) && InOrder(Front(s.backlog, hand) + hand)
            && forall x :: x in s.dispatched ==> AccountedAtDrain(s, c, now, x)
  {
    var s := Sections(r, inputs);
    SectionsOrdered(r, inputs);
    DrainedInOrder(s, c, now);
    forall x | x in s.dispatched
      ensures AccountedAtDrain(s, c, now, x)
    {
      SomewhereAtDrain(r, inputs, c, now, x);
    }
  }

  predicate AccountedAtDrain(s: Registry, c: nat, now: u64, x: Item)
    requires c < |s.conns|
  {
    var t := OnDrain(s, c, now);
    || x in t.inflight || x in t.conns[c].hand || x in Held(s.waiting)
    || x in t.acked || x in t.evicted || x in t.dropped
  }

  lemma SomewhereAtDrain(r: Registry, inputs: seq<Input>, c: nat, now: u64, x: Item)
    requires Initially(r) && Inv(Sections(r, inputs)) && x in Sections(r, inputs).dispatched
    requires var s := Sections(r, inputs); c < |s.conns| && s.conns[c].Claimed?
    ensures AccountedAtDrain(Sections(r, inputs), c, now, x)
  {
    NothingLostNothingTwice(r, inputs, x);
    DrainConserves(Sections(r, inputs), c, now, x);
    PlacesAtDrain(Sections(r, inputs), c, now, x);
  }

  lemma DrainedInOrder(s: Registry, c: nat, now: u64)
    requires Inv(s) && c < |s.conns| && s.conns[c].Claimed?
    ensures var hand := DropExpired(s.backlog, s.maxAge, now);
            InOrder(s.inflight + hand) && InOrder(Front(s.backlog, hand) + hand)
  {
    var hand, held := DropExpired(s.backlog, s.maxAge, now), Held(s.waiting);
    DrainShaped(s, c, OnDrain(s, c, now), hand);
    DrainOrdered(s, c, now);
    hide Shaped, InOrder, Held, DropExpired, ConnHand, Queue;
    DrainedParts(s.inflight, hand, s.backlog, held);
  }

  lemma DrainedParts(inflight: seq<Item>, hand: seq<Item>, backlog: seq<Item>, held: seq<Item>)
    requires InOrder(inflight + (hand + held)) && InOrder(inflight + (backlog + held)) && IsTail(hand, backlog)
    ensures InOrder(inflight + hand) && InOrder(Front(backlog, hand) + hand)
  {
    hide InOrder;
    Associates(inflight, hand, held);
    InOrderParts(inflight + hand, held);
    InOrderParts(inflight, backlog + held);
    InOrderParts(backlog, held);
    assert Front(backlog, hand) + hand == backlog;
  }

  lemma InOrderParts(a: seq<Item>, b: seq<Item>)
    requires InOrder(a + b)
    ensures InOrder(a) && InOrder(b)
  {
    assert forall i :: 0 <= i < |a| ==> (a + b)[i] == a[i];
    assert forall i :: 0 <= i < |b| ==> (a + b)[|a| + i] == b[i];
  }

  // ------------------------------------------------------------------------------------
  // A run that is not orderly

  const FIRST: Item := Stamped(1, Message(0, "$first", "!r"))
  const SECOND: Item := Stamped(2, Message(1, "$second", "!r"))

  /** A connection comes and takes what waits. */
  function Arrive(c: nat): seq<Input> {
    [Connect, Drain(c, 3), Adopt(c)]
  }

  const Leave: seq<Input> := [Dispatch(1, "$first", "!r", Accepted), Release(0), Collect(0)]

  const Overtake: seq<Input> := [Dispatch(2, "$second", "!r", Accepted), GiveBack(0, 3)]

  lemma {:induction false} InTwoParts(r: Registry, a: seq<Input>, b: seq<Input>)
    ensures Sections(r, a + b) == Sections(Sections(r, a), b)
    decreases a
  {
    if a == [] {
      assert a + b == b;
    } else {
      assert (a + b)[1..] == a[1..] + b;
      InTwoParts(Section(r, a[0]), a[1..], b);
    }
  }

  lemma TwoSections(r: Registry, a: Input, b: Input)
    ensures Sections(r, [a, b]) == Section(Section(r, a), b)
  {
    assert [a, b][1..] == [b];
    assert Sections(Section(r, a), [b]) == Section(Section(r, a), b) by {
      assert [b][1..] == [];
    }
  }

  lemma ThreeSections(r: Registry, a: Input, b: Input, c: Input)
    ensures Sections(r, [a, b, c]) == Section(Section(Section(r, a), b), c)
  {
    assert [a, b, c][1..] == [b, c];
    TwoSections(Section(r, a), b, c);
  }

  lemma Arrives(r: Registry)
    requires r.claim.None? && r.backlog == []
    ensures Sections(r, Arrive(|r.conns|)) == r.(claim := Some(|r.conns|), conns := r.conns + [Live])
  {
    var c := |r.conns|;
    ThreeSections(r, Connect, Drain(c, 3), Adopt(c));
    var drained := Section(Section(r, Connect), Drain(c, 3));
    assert drained == r.(claim := Some(c), conns := r.conns + [Drained([])]);
    assert Section(drained, Adopt(c)) == r.(claim := Some(c), conns := r.conns + [Live]);
  }

  lemma LeavesWithFirst(r: Registry)
    requires r == Empty(300).(claim := Some(0), conns := [Live])
    ensures Sections(r, Leave) == Empty(300).(conns := [Returning([FIRST])], dispatched := [FIRST])
  {
    ThreeSections(r, Leave[0], Leave[1], Leave[2]);
    var live := Section(r, Leave[0]);
    assert live == r.(inflight := [FIRST], dispatched := [FIRST]);
    assert Section(live, Leave[1]) == live.(claim := None, conns := [Released]);
  }

  lemma OvertakesFirst(r: Registry)
    requires r == Empty(300).(claim := Some(1), conns := [Returning([FIRST]), Live], dispatched := [FIRST])
    ensures var s := Sections(r, Overtake); s.inflight == [SECOND] && s.backlog == [FIRST]
  {
    TwoSections(r, Overtake[0], Overtake[1]);
    var live := Section(r, Overtake[0]);
    assert live == r.(inflight := [SECOND], dispatched := [FIRST, SECOND]);
    assert [FIRST] + [] == [FIRST];
    assert DropExpired([FIRST], 300, 3) == [FIRST];
  }

  /** Every connection of this run takes what waits before a live delivery reaches it, but one
      is made while the one before still holds a message in hand: the second message is in
      flight ahead of the first, which waits for a connection after this one. */
  lemma ReconnectOvertakes()
    ensures var s := Sections(Empty(300), Arrive(0) + (Leave + (Arrive(1) + Overtake)));
            s.inflight == [SECOND] && s.backlog == [FIRST]
  {
    var r := Empty(300);
    InTwoParts(r, Arrive(0), Leave + (Arrive(1) + Overtake));
    Arrives(r);
    var r1 := Sections(r, Arrive(0));
    InTwoParts(r1, Leave, Arrive(1) + Overtake);
    LeavesWithFirst(r1);
    var r2 := Sections(r1, Leave);
    InTwoParts(r2, Arrive(1), Overtake);
    Arrives(r2);
    OvertakesFirst(Sections(r2, Arrive(1)));
  }
}
