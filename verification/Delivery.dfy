/**
  The registry of one session in the daemon (crates/siltad/src/daemon.rs): the claim, the
  events in flight and the backlog, changed by any number of dispatches and connection
  handlers at once.

  One input is one section under the registry's locks. `take_backlog` and `restore` have two
  sections each, and so has a dispatch that finds no connection: what they hold between the
  two is in hand. Sections of different tasks may come in any order. A message carries the
  number of its dispatch; whether a queue to a connection is full or closed is an input.
 */
module Delivery {
  import opened Prelude
  import opened Backlogs
  import opened Replay

  datatype Message = Message(no: nat, id: string, room: string)

  type Item = Stamped<Message>

  const BACKLOG_MAX: nat := 100

  /** A connection handler: it claims the session, drains the backlog, puts what it drained in
      flight, runs, releases the claim, collects what is in flight and gives it back. */
  datatype Conn =
    | Claimed
    | Drained(hand: seq<Item>)
    | Live
    | Acking(item: Item)
    | Released
    | Returning(hand: seq<Item>)
    | Gone
  {
    predicate HoldsClaim() {
      Claimed? || Drained? || Live? || Acking?
    }

    function InHand(): seq<Item> {
      match this
      case Drained(hand) => hand
      case Acking(item) => [item]
      case Returning(hand) => hand
      case _ => []
    }
  }

  /** How the queue to a connection answers a hand-over. */
  datatype Fate = Accepted | Full | Closed

  datatype Registry = Registry(
    maxAge: u64,
    claim: Option<nat>,
    conns: seq<Conn>,
    waiting: seq<Option<Item>>,
    inflight: seq<Item>,
    backlog: seq<Item>,
    marks: Marks,
    // the history
    dispatched: seq<Item>,
    acked: seq<Item>,
    evicted: seq<Item>,
    dropped: seq<Item>)

  datatype Input =
    | Dispatch(ts: u64, id: string, room: string, fate: Fate)
    | Enqueue(d: nat, now: u64)
    | Connect
    | Drain(c: nat, now: u64)
    | Adopt(c: nat)
    | Ack(c: nat, id: string)
    | SetMarkOf(c: nat)
    | Release(c: nat)
    | Collect(c: nat)
    | GiveBack(c: nat, now: u64)

  function Front<T>(all: seq<T>, kept: seq<T>): seq<T>
    requires |kept| <= |all|
  {
    all[..|all| - |kept|]
  }

  function Seen(item: Item): Delivered {
    Delivered(item.item.room, item.ts, item.item.id)
  }

  /** The position of the first item with this id, or the length. */
  function Find(items: seq<Item>, id: string): (at: nat)
    ensures at <= |items| && (at < |items| ==> items[at].item.id == id)
    ensures forall j :: 0 <= j < at ==> items[j].item.id != id
  {
    if items == [] then 0 else if items[0].item.id == id then 0 else 1 + Find(items[1..], id)
  }

  function Moved(r: Registry, c: nat, conn: Conn): Registry
    requires c < |r.conns|
  {
    r.(conns := r.conns[c := conn])
  }

  /** The first section of a dispatch: handed to the connection, dropped for a full queue, or
      in hand for the backlog. */
  function OnDispatch(r: Registry, ts: u64, id: string, room: string, fate: Fate): Registry {
    var item := Stamped(ts, Message(|r.dispatched|, id, room));
    var s := r.(dispatched := r.dispatched + [item]);
    if r.claim.None? || fate.Closed? then s.(waiting := r.waiting + [Some(item)])
    else if fate.Full? then s.(dropped := r.dropped + [item])
    else s.(inflight := r.inflight + [item])
  }

  function OnEnqueue(r: Registry, d: nat, now: u64): Registry
    requires d < |r.waiting| && r.waiting[d].Some?
  {
    var item := r.waiting[d].value;
    var kept := Pushed(r.backlog, item, BACKLOG_MAX, r.maxAge, now);
    r.(waiting := r.waiting[d := None], backlog := kept,
       evicted := r.evicted + Front(r.backlog + [item], kept))
  }

  function OnConnect(r: Registry): Registry {
    if r.claim.Some? then r else r.(claim := Some(|r.conns|), conns := r.conns + [Claimed])
  }

  function OnDrain(r: Registry, c: nat, now: u64): Registry
    requires c < |r.conns|
  {
    var kept := DropExpired(r.backlog, r.maxAge, now);
    Moved(r, c, Drained(kept)).(backlog := [], evicted := r.evicted + Front(r.backlog, kept))
  }

  function OnAdopt(r: Registry, c: nat): Registry
    requires c < |r.conns| && r.conns[c].Drained?
  {
    Moved(r, c, Live).(inflight := r.inflight + r.conns[c].hand)
  }

  function OnAck(r: Registry, c: nat, id: string): Registry
    requires c < |r.conns|
  {
    var at := Find(r.inflight, id);
    if at == |r.inflight| then r
    else Moved(r, c, Acking(r.inflight[at])).(inflight := r.inflight[..at] + r.inflight[at + 1..])
  }

  function OnSetMark(r: Registry, c: nat): Registry
    requires c < |r.conns| && r.conns[c].Acking?
  {
    var item := r.conns[c].item;
    Moved(r, c, Live).(marks := SetMark(r.marks, Seen(item)), acked := r.acked + [item])
  }

  function OnRelease(r: Registry, c: nat): Registry
    requires c < |r.conns|
  {
    Moved(r, c, Released).(claim := None)
  }

  function OnCollect(r: Registry, c: nat): Registry
    requires c < |r.conns|
  {
    Moved(r, c, Returning(r.inflight)).(inflight := [])
  }

  function OnGiveBack(r: Registry, c: nat, now: u64): Registry
    requires c < |r.conns| && r.conns[c].Returning?
  {
    var hand := r.conns[c].hand;
    if hand == [] then Moved(r, c, Gone)
    else
      var kept := Restored(hand, r.backlog, BACKLOG_MAX, r.maxAge, now);
      Moved(r, c, Gone).(backlog := kept, evicted := r.evicted + Front(hand + r.backlog, kept))
  }

  /** One section; an input that does not apply changes nothing. */
  function Section(r: Registry, input: Input): Registry {
    match input
    case Dispatch(ts, id, room, fate) => OnDispatch(r, ts, id, room, fate)
    case Enqueue(d, now) => if d < |r.waiting| && r.waiting[d].Some? then OnEnqueue(r, d, now) else r
    case Connect => OnConnect(r)
    case Drain(c, now) => if c < |r.conns| && r.conns[c].Claimed? then OnDrain(r, c, now) else r
    case Adopt(c) => if c < |r.conns| && r.conns[c].Drained? then OnAdopt(r, c) else r
    case Ack(c, id) => if c < |r.conns| && r.conns[c].Live? then OnAck(r, c, id) else r
    case SetMarkOf(c) => if c < |r.conns| && r.conns[c].Acking? then OnSetMark(r, c) else r
    case Release(c) =>
      if c < |r.conns| && (r.conns[c].Claimed? || r.conns[c].Live?) then OnRelease(r, c) else r
    case Collect(c) => if c < |r.conns| && r.conns[c].Released? then OnCollect(r, c) else r
    case GiveBack(c, now) => if c < |r.conns| && r.conns[c].Returning? then OnGiveBack(r, c, now) else r
  }

  function Sections(r: Registry, inputs: seq<Input>): Registry
    decreases inputs
  {
    if inputs == [] then r else Sections(Section(r, inputs[0]), inputs[1..])
  }

  function Empty(maxAge: u64): Registry {
    Registry(maxAge, None, [], [], [], [], map[], [], [], [], [])
  }

  /** The daemon has just started. */
  predicate Initially(r: Registry) {
    r == Empty(r.maxAge)
  }

  // ------------------------------------------------------------------------------------
  // Conservation and the claim

  function Count(items: seq<Item>, x: Item): nat {
    multiset(items)[x]
  }

  function CountInHands(conns: seq<Conn>, x: Item): nat {
    if conns == [] then 0 else CountInHands(Init(conns), x) + Count(Last(conns).InHand(), x)
  }

  function CountHeld(d: Option<Item>, x: Item): nat {
    if d == Some(x) then 1 else 0
  }

  function CountWaiting(waiting: seq<Option<Item>>, x: Item): nat {
    if waiting == [] then 0 else CountWaiting(Init(waiting), x) + CountHeld(Last(waiting), x)
  }

  /** In how many places a message is: in flight, in the backlog, in hand, acknowledged,
      evicted, or dropped for a full queue. */
  function Places(r: Registry, x: Item): nat {
    Count(r.inflight, x) + Count(r.backlog, x) + CountInHands(r.conns, x) + CountWaiting(r.waiting, x)
    + Count(r.acked, x) + Count(r.evicted, x) + Count(r.dropped, x)
  }

  predicate ClaimAgrees(r: Registry) {
    forall c :: 0 <= c < |r.conns| ==> (r.conns[c].HoldsClaim() <==> r.claim == Some(c))
  }

  function Told(acked: seq<Item>): (told: seq<Delivered>)
    ensures |told| == |acked| && forall i :: 0 <= i < |acked| ==> told[i] == Seen(acked[i])
  {
    seq(|acked|, i requires 0 <= i < |acked| => Seen(acked[i]))
  }

  predicate Numbered(r: Registry) {
    forall i :: 0 <= i < |r.dispatched| ==> r.dispatched[i].item.no == i
  }

  lemma CountSum(a: seq<Item>, b: seq<Item>, x: Item)
    ensures Count(a + b, x) == Count(a, x) + Count(b, x)
  {
  }

  lemma {:induction false} HandsUpdated(conns: seq<Conn>, c: nat, conn: Conn, x: Item)
    requires c < |conns|
    ensures CountInHands(conns[c := conn], x) + Count(conns[c].InHand(), x)
            == CountInHands(conns, x) + Count(conn.InHand(), x)
  {
    hide Count;
    var changed := conns[c := conn];
    if c == |conns| - 1 {
      assert Init(changed) == Init(conns);
    } else {
      HandsUpdated(Init(conns), c, conn, x);
      assert Init(changed) == Init(conns)[c := conn];
      assert Last(changed) == Last(conns);
    }
  }

  lemma {:induction false} WaitingUpdated(waiting: seq<Option<Item>>, d: nat, held: Option<Item>, x: Item)
    requires d < |waiting|
    ensures CountWaiting(waiting[d := held], x) + CountHeld(waiting[d], x)
            == CountWaiting(waiting, x) + CountHeld(held, x)
  {
    hide CountHeld;
    var changed := waiting[d := held];
    if d == |waiting| - 1 {
      assert Init(changed) == Init(waiting);
    } else {
      WaitingUpdated(Init(waiting), d, held, x);
      assert Init(changed) == Init(waiting)[d := held];
      assert Last(changed) == Last(waiting);
    }
  }

  lemma FrontAndKept(all: seq<Item>, kept: seq<Item>, x: Item)
    requires IsTail(kept, all)
    ensures Count(Front(all, kept), x) + Count(kept, x) == Count(all, x)
  {
    assert all == Front(all, kept) + kept;
    CountSum(Front(all, kept), kept, x);
  }

  lemma OneMore(items: seq<Item>, item: Item, x: Item)
    ensures Count(items + [item], x) == Count(items, x) + CountHeld(Some(item), x)
  {
    CountSum(items, [item], x);
  }

  lemma OneMoreWaiting(waiting: seq<Option<Item>>, item: Item, x: Item)
    ensures CountWaiting(waiting + [Some(item)], x) == CountWaiting(waiting, x) + CountHeld(Some(item), x)
  {
    assert Init(waiting + [Some(item)]) == waiting;
  }

  lemma DispatchConserves(r: Registry, ts: u64, id: string, room: string, fate: Fate, x: Item)
    ensures var s := OnDispatch(r, ts, id, room, fate);
            Places(s, x) - Count(s.dispatched, x) == Places(r, x) - Count(r.dispatched, x)
  {
    var item := Stamped(ts, Message(|r.dispatched|, id, room));
    OneMore(r.dispatched, item, x);
    if r.claim.None? || fate.Closed? {
      OneMoreWaiting(r.waiting, item, x);
    } else if fate.Full? {
      OneMore(r.dropped, item, x);
    } else {
      OneMore(r.inflight, item, x);
    }
  }

  lemma EnqueueConserves(r: Registry, d: nat, now: u64, x: Item)
    requires d < |r.waiting| && r.waiting[d].Some?
    ensures Places(OnEnqueue(r, d, now), x) == Places(r, x)
  {
    var item := r.waiting[d].value;
    var kept := Pushed(r.backlog, item, BACKLOG_MAX, r.maxAge, now);
    WaitingUpdated(r.waiting, d, None, x);
    FrontAndKept(r.backlog + [item], kept, x);
    CountSum(r.backlog, [item], x);
    CountSum(r.evicted, Front(r.backlog + [item], kept), x);
  }

  lemma DrainConserves(r: Registry, c: nat, now: u64, x: Item)
    requires c < |r.conns| && r.conns[c].Claimed?
    ensures Places(OnDrain(r, c, now), x) == Places(r, x)
  {
    var kept := DropExpired(r.backlog, r.maxAge, now);
    HandsUpdated(r.conns, c, Drained(kept), x);
    FrontAndKept(r.backlog, kept, x);
    CountSum(r.evicted, Front(r.backlog, kept), x);
  }

  lemma AdoptConserves(r: Registry, c: nat, x: Item)
    requires c < |r.conns| && r.conns[c].Drained?
    ensures Places(OnAdopt(r, c), x) == Places(r, x)
  {
    HandsUpdated(r.conns, c, Live, x);
    CountSum(r.inflight, r.conns[c].hand, x);
  }

  lemma OneLess(items: seq<Item>, at: nat, x: Item)
    requires at < |items|
    ensures Count(items[..at] + items[at + 1..], x) + Count([items[at]], x) == Count(items, x)
  {
    var before, after := items[..at], items[at + 1..];
    assert items == before + ([items[at]] + after);
    CountSum(before, [items[at]] + after, x);
    CountSum([items[at]], after, x);
    CountSum(before, after, x);
  }

  lemma AckConserves(r: Registry, c: nat, id: string, x: Item)
    requires c < |r.conns| && r.conns[c].Live?
    ensures Places(OnAck(r, c, id), x) == Places(r, x)
  {
    hide Places, Count;
    var at := Find(r.inflight, id);
    if at < |r.inflight| {
      OneLess(r.inflight, at, x);
      TakenConserves(r, c, r.inflight[at], r.inflight[..at] + r.inflight[at + 1..], x);
    }
  }

  lemma TakenConserves(r: Registry, c: nat, item: Item, rest: seq<Item>, x: Item)
    requires c < |r.conns| && r.conns[c].Live?
    requires Count(rest, x) + Count([item], x) == Count(r.inflight, x)
    ensures Places(Moved(r, c, Acking(item)).(inflight := rest), x) == Places(r, x)
  {
    HandsUpdated(r.conns, c, Acking(item), x);
  }

  lemma SetMarkConserves(r: Registry, c: nat, x: Item)
    requires c < |r.conns| && r.conns[c].Acking?
    ensures Places(OnSetMark(r, c), x) == Places(r, x)
  {
    HandsUpdated(r.conns, c, Live, x);
    CountSum(r.acked, [r.conns[c].item], x);
  }

  lemma EvictionCounts(all: seq<Item>, kept: seq<Item>, evicted: seq<Item>, x: Item)
    requires IsTail(kept, all)
    ensures Count(kept, x) + Count(evicted + Front(all, kept), x) == Count(all, x) + Count(evicted, x)
  {
    FrontAndKept(all, kept, x);
    CountSum(evicted, Front(all, kept), x);
  }

  lemma ReturnConserves(r: Registry, c: nat, kept: seq<Item>, x: Item)
    requires c < |r.conns| && r.conns[c].Returning? && IsTail(kept, r.conns[c].hand + r.backlog)
    ensures var front := Front(r.conns[c].hand + r.backlog, kept);
            Places(Moved(r, c, Gone).(backlog := kept, evicted := r.evicted + front), x) == Places(r, x)
  {
    HandsUpdated(r.conns, c, Gone, x);
    EvictionCounts(r.conns[c].hand + r.backlog, kept, r.evicted, x);
    CountSum(r.conns[c].hand, r.backlog, x);
  }

  lemma GiveBackConserves(r: Registry, c: nat, now: u64, x: Item)
    requires c < |r.conns| && r.conns[c].Returning?
    ensures Places(OnGiveBack(r, c, now), x) == Places(r, x)
  {
    hide Restored, Front;
    var hand := r.conns[c].hand;
    if hand == [] {
      HandsUpdated(r.conns, c, Gone, x);
    } else {
      ReturnConserves(r, c, Restored(hand, r.backlog, BACKLOG_MAX, r.maxAge, now), x);
    }
  }

  lemma ReleaseConserves(r: Registry, c: nat, x: Item)
    requires c < |r.conns| && (r.conns[c].Claimed? || r.conns[c].Live?)
    ensures Places(OnRelease(r, c), x) == Places(r, x)
  {
    HandsUpdated(r.conns, c, Released, x);
  }

  lemma CollectConserves(r: Registry, c: nat, x: Item)
    requires c < |r.conns| && r.conns[c].Released?
    ensures Places(OnCollect(r, c), x) == Places(r, x)
  {
    HandsUpdated(r.conns, c, Returning(r.inflight), x);
  }

  lemma ConnectConserves(r: Registry, x: Item)
    ensures Places(OnConnect(r), x) == Places(r, x)
  {
    assert Init(r.conns + [Claimed]) == r.conns;
  }

  /** What a section adds to the places of a message, it adds to its dispatches. */
  predicate Conserves(r: Registry, s: Registry, x: Item) {
    Places(s, x) - Count(s.dispatched, x) == Places(r, x) - Count(r.dispatched, x)
  }

  lemma SameDispatched(r: Registry, input: Input)
    requires !input.Dispatch?
    ensures Section(r, input).dispatched == r.dispatched
  {
  }

  lemma HandSectionConserves(r: Registry, input: Input, x: Item)
    requires input.Drain? || input.Adopt? || input.Ack? || input.SetMarkOf?
    ensures Conserves(r, Section(r, input), x)
  {
    hide OnDrain, OnAdopt, OnAck, OnSetMark, Places;
    SameDispatched(r, input);
    var c := input.c;
    if c < |r.conns| {
      match input
      case Drain(_, now) => if r.conns[c].Claimed? { DrainConserves(r, c, now, x); }
      case Adopt(_) => if r.conns[c].Drained? { AdoptConserves(r, c, x); }
      case Ack(_, id) => if r.conns[c].Live? { AckConserves(r, c, id, x); }
      case SetMarkOf(_) => if r.conns[c].Acking? { SetMarkConserves(r, c, x); }
    }
  }

  lemma EndSectionConserves(r: Registry, input: Input, x: Item)
    requires input.Release? || input.Collect? || input.GiveBack?
    ensures Conserves(r, Section(r, input), x)
  {
    hide OnRelease, OnCollect, OnGiveBack, Places;
    SameDispatched(r, input);
    var c := input.c;
    if c < |r.conns| {
      match input
      case Release(_) => if r.conns[c].Claimed? || r.conns[c].Live? { ReleaseConserves(r, c, x); }
      case Collect(_) => if r.conns[c].Released? { CollectConserves(r, c, x); }
      case GiveBack(_, now) => if r.conns[c].Returning? { GiveBackConserves(r, c, now, x); }
    }
  }

  lemma SectionConserves(r: Registry, input: Input, x: Item)
    ensures Conserves(r, Section(r, input), x)
  {
    hide Places, OnDispatch, OnEnqueue, OnConnect;
    if !input.Dispatch? {
      SameDispatched(r, input);
    }
    match input
    case Dispatch(ts, id, room, fate) => DispatchConserves(r, ts, id, room, fate, x);
    case Enqueue(d, now) => if d < |r.waiting| && r.waiting[d].Some? { EnqueueConserves(r, d, now, x); }
    case Connect => ConnectConserves(r, x);
    case Drain(_, _) => HandSectionConserves(r, input, x);
    case Adopt(_) => HandSectionConserves(r, input, x);
    case Ack(_, _) => HandSectionConserves(r, input, x);
    case SetMarkOf(_) => HandSectionConserves(r, input, x);
    case _ => EndSectionConserves(r, input, x);
  }

  lemma MovedKeepsClaim(r: Registry, c: nat, conn: Conn)
    requires ClaimAgrees(r) && c < |r.conns| && conn.HoldsClaim() == r.conns[c].HoldsClaim()
    ensures ClaimAgrees(Moved(r, c, conn))
  {
  }

  lemma ReleaseKeepsClaim(r: Registry, c: nat)
    requires ClaimAgrees(r) && c < |r.conns| && (r.conns[c].Claimed? || r.conns[c].Live?)
    ensures ClaimAgrees(OnRelease(r, c))
  {
  }

  lemma ConnectKeepsClaim(r: Registry)
    requires ClaimAgrees(r)
    ensures ClaimAgrees(OnConnect(r))
  {
  }

  /** Who holds the session depends on the connections only. */
  lemma SameClaim(r: Registry, s: Registry)
    requires ClaimAgrees(r) && s.claim == r.claim && s.conns == r.conns
    ensures ClaimAgrees(s)
  {
  }

  lemma SectionKeepsClaim(r: Registry, input: Input)
    requires ClaimAgrees(r) && Numbered(r)
    ensures ClaimAgrees(Section(r, input)) && Numbered(Section(r, input))
  {
    SectionKeepsNumbers(r, input);
    hide ClaimAgrees, Numbered, Pushed, Restored, DropExpired, SetMark, Front, Find;
    var s := Section(r, input);
    match input
    case Dispatch(_, _, _, _) => SameClaim(r, s);
    case Enqueue(_, _) => SameClaim(r, s);
    case Connect => ConnectKeepsClaim(r);
    case Release(c) =>
      if c < |r.conns| && (r.conns[c].Claimed? || r.conns[c].Live?) { ReleaseKeepsClaim(r, c); }
    case _ =>
      if s.conns != r.conns {
        MovedKeepsClaim(r, input.c, s.conns[input.c]);
        SameClaim(Moved(r, input.c, s.conns[input.c]), s);
      } else {
        SameClaim(r, s);
      }
  }

  lemma SectionKeepsNumbers(r: Registry, input: Input)
    requires Numbered(r)
    ensures Numbered(Section(r, input))
  {
    if !input.Dispatch? {
      SameDispatched(r, input);
      hide Section;
    }
  }

  lemma QueueingLeavesMarks(r: Registry, input: Input)
    requires input.Dispatch? || input.Enqueue? || input.Connect?
    ensures var s := Section(r, input); s.marks == r.marks && s.acked == r.acked
  {
    hide Pushed, Front;
  }

  lemma TakingLeavesMarks(r: Registry, input: Input)
    requires input.Drain? || input.Adopt? || input.Ack?
    ensures var s := Section(r, input); s.marks == r.marks && s.acked == r.acked
  {
    hide DropExpired, Front, Find;
  }

  lemma EndingLeavesMarks(r: Registry, input: Input)
    requires input.Release? || input.Collect? || input.GiveBack?
    ensures var s := Section(r, input); s.marks == r.marks && s.acked == r.acked
  {
    hide Restored, Front;
  }

  lemma OnlyAcksMark(r: Registry, input: Input)
    ensures var s := Section(r, input);
            if input.SetMarkOf? && input.c < |r.conns| && r.conns[input.c].Acking? then
              var item := r.conns[input.c].item;
              s.marks == SetMark(r.marks, Seen(item)) && s.acked == r.acked + [item]
            else s.marks == r.marks && s.acked == r.acked
  {
    if !input.SetMarkOf? {
      hide Section;
      if input.Dispatch? || input.Enqueue? || input.Connect? {
        QueueingLeavesMarks(r, input);
      } else if input.Drain? || input.Adopt? || input.Ack? {
        TakingLeavesMarks(r, input);
      } else {
        EndingLeavesMarks(r, input);
      }
    }
  }

  lemma ToldMore(acked: seq<Item>, item: Item)
    ensures Told(acked + [item]) == Told(acked) + [Seen(item)]
  {
  }

  lemma SectionKeepsMarks(r: Registry, input: Input)
    requires MarksTell(r.marks, Told(r.acked))
    ensures var s := Section(r, input); MarksTell(s.marks, Told(s.acked))
  {
    hide Section, MarksTell, SetMark;
    OnlyAcksMark(r, input);
    if input.SetMarkOf? && input.c < |r.conns| && r.conns[input.c].Acking? {
      var item := r.conns[input.c].item;
      SetMarkTells(r.marks, Told(r.acked), Seen(item));
      ToldMore(r.acked, item);
    }
  }

  lemma {:induction false} SectionsConserve(r: Registry, inputs: seq<Input>, x: Item)
    ensures var s := Sections(r, inputs);
            Conserves(r, s, x)
    decreases inputs
  {
    if inputs != [] {
      SectionConserves(r, inputs[0], x);
      SectionsConserve(Section(r, inputs[0]), inputs[1..], x);
    }
  }

  lemma {:induction false} SectionsKeep(r: Registry, inputs: seq<Input>)
    requires ClaimAgrees(r) && Numbered(r) && MarksTell(r.marks, Told(r.acked))
    ensures var s := Sections(r, inputs); ClaimAgrees(s) && Numbered(s) && MarksTell(s.marks, Told(s.acked))
    decreases inputs
  {
    if inputs != [] {
      SectionKeepsClaim(r, inputs[0]);
      SectionKeepsMarks(r, inputs[0]);
      SectionsKeep(Section(r, inputs[0]), inputs[1..]);
    }
  }

  lemma {:induction false} CountOnce(items: seq<Item>, x: Item)
    requires forall i, j :: 0 <= i < j < |items| ==> items[i] != items[j]
    ensures Count(items, x) == if x in items then 1 else 0
  {
    if items != [] {
      CountOnce(items[1..], x);
      assert items == [items[0]] + items[1..];
      CountSum([items[0]], items[1..], x);
      if x in items[1..] {
        var i :| 0 <= i < |items[1..]| && items[1..][i] == x;
        assert items[i + 1] == x;
      }
    }
  }

  /** Under every interleaving, a dispatched message is in exactly one place, exactly once, and
      nothing else is anywhere. */
  lemma NothingLostNothingTwice(r: Registry, inputs: seq<Input>, x: Item)
    requires Initially(r)
    ensures var s := Sections(r, inputs); Places(s, x) == if x in s.dispatched then 1 else 0
  {
    var s := Sections(r, inputs);
    SectionsConserve(r, inputs, x);
    SectionsKeep(r, inputs);
    forall i, j | 0 <= i < j < |s.dispatched| ensures s.dispatched[i] != s.dispatched[j] {
      assert s.dispatched[i].item.no == i && s.dispatched[j].item.no == j;
    }
    CountOnce(s.dispatched, x);
  }

  /** Under every interleaving, at most one connection holds the session. */
  lemma AtMostOneClaim(r: Registry, inputs: seq<Input>, a: nat, b: nat)
    requires Initially(r)
    requires var s := Sections(r, inputs); a < |s.conns| && b < |s.conns|
    requires var s := Sections(r, inputs); s.conns[a].HoldsClaim() && s.conns[b].HoldsClaim()
    ensures a == b
  {
    SectionsKeep(r, inputs);
  }

  /** Under every interleaving, the mark of a room is the last event acknowledged at the largest
      timestamp acknowledged there. */
  lemma MarksTellTheAcks(r: Registry, inputs: seq<Input>)
    requires Initially(r)
    ensures var s := Sections(r, inputs); MarksTell(s.marks, Told(s.acked))
  {
    SectionsKeep(r, inputs);
  }

  // ------------------------------------------------------------------------------------
  // Which messages are acknowledged, dropped and evicted

  /** An acknowledgement, once its mark is set, acknowledges the first message in flight with this
      id, and nothing if there is none. */
  lemma AcknowledgesExactly(r: Registry, c: nat, id: string)
    requires c < |r.conns| && r.conns[c].Live?
    ensures var s := Section(Section(r, Ack(c, id)), SetMarkOf(c));
            if i: nat :| i < |r.inflight| && r.inflight[i].item.id == id && forall j :: 0 <= j < i ==> r.inflight[j].item.id != id
            then s.acked == r.acked + [r.inflight[i]] && s.inflight == r.inflight[..i] + r.inflight[i + 1..] && s.conns[c].Live?
            else s == r
  {
  }

  /** The message that a dispatch in this state is about. */
  function Dispatched(r: Registry, input: Input): Item
    requires input.Dispatch?
  {
    Stamped(input.ts, Message(|r.dispatched|, input.id, input.room))
  }

  /** The dispatch at `i` came while a connection held the session and its queue was full. */
  predicate MeetsFullQueue(r: Registry, inputs: seq<Input>, i: int, x: Item) {
    && 0 <= i < |inputs| && inputs[i].Dispatch? && inputs[i].fate.Full?
    && Sections(r, inputs[..i]).claim.Some? && x == Dispatched(Sections(r, inputs[..i]), inputs[i])
  }

  lemma {:induction false} OneSectionMore(r: Registry, inputs: seq<Input>, n: nat)
    requires n < |inputs|
    ensures Sections(r, inputs[..n + 1]) == Section(Sections(r, inputs[..n]), inputs[n])
    decreases n
  {
    hide Section;
    var more := inputs[..n + 1];
    if n == 0 {
      assert more[1..] == [] && inputs[..0] == [];
    } else {
      assert more[1..] == inputs[1..][..n] && inputs[..n][1..] == inputs[1..][..n - 1];
      OneSectionMore(Section(r, inputs[0]), inputs[1..], n - 1);
    }
  }

  lemma SectionDrops(r: Registry, input: Input)
    ensures Section(r, input).dropped == r.dropped
              + if input.Dispatch? && input.fate.Full? && r.claim.Some? then [Dispatched(r, input)] else []
  {
    hide Pushed, Restored, DropExpired, Front, SetMark, Find;
  }

  lemma {:induction false} DropsUpTo(r: Registry, inputs: seq<Input>, n: nat, x: Item)
    requires n <= |inputs| && r.dropped == []
    ensures x in Sections(r, inputs[..n]).dropped <==> exists i :: i < n && MeetsFullQueue(r, inputs, i, x)
  {
    hide Section, Dispatched;
    if n > 0 {
      DropsUpTo(r, inputs, n - 1, x);
      OneSectionMore(r, inputs, n - 1);
      SectionDrops(Sections(r, inputs[..n - 1]), inputs[n - 1]);
      assert MeetsFullQueue(r, inputs, n - 1, x) <==>
             x in Sections(r, inputs[..n]).dropped[|Sections(r, inputs[..n - 1]).dropped|..];
    } else {
      assert inputs[..0] == [];
    }
  }

  /** Under every interleaving, a message is dropped exactly if its dispatch found a connection
      whose queue was full. */
  lemma DroppedExactly(r: Registry, inputs: seq<Input>, x: Item)
    requires Initially(r)
    ensures x in Sections(r, inputs).dropped <==> exists i :: MeetsFullQueue(r, inputs, i, x)
  {
    hide Sections, MeetsFullQueue;
    DropsUpTo(r, inputs, |inputs|, x);
    assert inputs[..|inputs|] == inputs;
    forall i | MeetsFullQueue(r, inputs, i, x) ensures i < |inputs| {
      InRange(r, inputs, i, x);
    }
  }

  lemma InRange(r: Registry, inputs: seq<Input>, i: int, x: Item)
    requires MeetsFullQueue(r, inputs, i, x)
    ensures i < |inputs|
  {
  }

  /** All of some items are within the age limit. */
  predicate AllYoung(items: seq<Item>, maxAge: u64, now: u64) {
    forall i :: 0 <= i < |items| ==> Young(items[i], maxAge, now)
  }

  lemma EvictsNone(all: seq<Item>, kept: seq<Item>, evicted: seq<Item>)
    requires IsTail(kept, all)
    ensures evicted + Front(all, kept) == evicted <==> kept == all
  {
    assert |Front(all, kept)| == |all| - |kept|;
    if kept == all {
      assert Front(all, kept) == [];
    } else {
      assert |evicted + Front(all, kept)| > |evicted|;
    }
  }

  /** In order of time, queueing a message evicts none if and only if there were fewer than 100 and
      all of them are within the age limit. */
  lemma QueueingEvictsNone(r: Registry, d: nat, now: u64)
    requires d < |r.waiting| && r.waiting[d].Some? && Backlogs.Ordered(r.backlog)
    ensures Section(r, Enqueue(d, now)).evicted == r.evicted <==> |r.backlog| < 100 && AllYoung(r.backlog, r.maxAge, now)
  {
    var item := r.waiting[d].value;
    PushKeepsTheYoung(r.backlog, item, BACKLOG_MAX, r.maxAge, now);
    var kept := Pushed(r.backlog, item, BACKLOG_MAX, r.maxAge, now);
    EvictsNone(r.backlog + [item], kept, r.evicted);
    var k: nat :| YoungFrom(r.backlog, r.maxAge, now, k) && kept == Newest(r.backlog[k..] + [item], 100);
    hide Pushed, Front;
    YoungFromStart(r.backlog, r.maxAge, now, k);
  }

  lemma YoungFromStart(items: seq<Item>, maxAge: u64, now: u64, k: nat)
    requires YoungFrom(items, maxAge, now, k)
    ensures AllYoung(items, maxAge, now) <==> k == 0
  {
    assert k > 0 ==> !Young(items[0], maxAge, now);
  }

  lemma KeepsAll(items: seq<Item>, maxAge: u64, now: u64, k: nat)
    requires YoungFrom(items, maxAge, now, k)
    ensures Newest(items[k..], 100) == items <==> |items| <= 100 && AllYoung(items, maxAge, now)
  {
    YoungFromStart(items, maxAge, now, k);
    assert k == 0 ==> items[k..] == items;
  }

  lemma RestoreKeepsAll(hand: seq<Item>, backlog: seq<Item>, maxAge: u64, now: u64)
    requires Backlogs.Ordered(hand + backlog)
    ensures Restored(hand, backlog, BACKLOG_MAX, maxAge, now) == hand + backlog
            <==> |hand + backlog| <= 100 && AllYoung(hand + backlog, maxAge, now)
  {
    hide DropExpired, Newest, AllYoung, Backlogs.Ordered, IsTail;
    var all := hand + backlog;
    var k := YoungBegin(all, maxAge, now);
    KeepsAll(all, maxAge, now, k);
  }

  /** And giving back what a connection held evicts none if and only if it is not more than 100 with
      what waits, and all of it within the age limit. */
  lemma GivingBackEvictsNone(r: Registry, c: nat, now: u64)
    requires c < |r.conns| && r.conns[c].Returning? && Backlogs.Ordered(r.conns[c].hand + r.backlog) && r.conns[c].hand != []
    ensures var all := r.conns[c].hand + r.backlog;
            Section(r, GiveBack(c, now)).evicted == r.evicted <==> |all| <= 100 && AllYoung(all, r.maxAge, now)
  {
    hide Restored, AllYoung, Backlogs.Ordered, Front, IsTail;
    var hand := r.conns[c].hand;
    var kept := Restored(hand, r.backlog, BACKLOG_MAX, r.maxAge, now);
    RestoreKeepsAll(hand, r.backlog, r.maxAge, now);
    EvictsNone(hand + r.backlog, kept, r.evicted);
  }
}
