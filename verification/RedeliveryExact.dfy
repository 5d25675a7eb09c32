/**
  The conditions under which messages come again in order are exact: a section that breaks one
  of them can be followed by an orderly run after which a newer message stands before an older
  one, and, unless the queue overflows, by one that hands them over in that order.
 */
module RedeliveryExact {
  import opened Prelude
  import opened Backlogs
  import opened Delivery
  import opened Redelivery

  // ------------------------------------------------------------------------------------
  // Runs in parts

  lemma {:induction false} OrderlyInTwo(r: Registry, a: seq<Input>, b: seq<Input>)
    ensures Orderly(r, a + b) <==> Orderly(r, a) && Orderly(Sections(r, a), b)
    ensures Sections(r, a + b) == Sections(Sections(r, a), b)
    decreases a
  {
    hide OrderlySection, Section;
    if a == [] {
      assert a + b == b;
    } else {
      assert (a + b)[0] == a[0] && (a + b)[1..] == a[1..] + b;
      OrderlyInTwo(Section(r, a[0]), a[1..], b);
    }
  }

  lemma OneSection(r: Registry, input: Input)
    ensures Orderly(r, [input]) <==> OrderlySection(r, input)
    ensures Sections(r, [input]) == Section(r, input)
  {
    hide OrderlySection, Section;
    assert [input][1..] == [];
  }

  /** One more section at the front of a run. */
  lemma FirstSection(r: Registry, input: Input, more: seq<Input>)
    requires OrderlySection(r, input) && Orderly(Section(r, input), more)
    ensures Orderly(r, [input] + more) && Sections(r, [input] + more) == Sections(Section(r, input), more)
  {
    hide OrderlySection, Section;
    OrderlyInTwo(r, [input], more);
    OneSection(r, input);
  }

  lemma OutOfOrder(items: seq<Item>, i: nat, j: nat)
    requires i < j < |items| && items[i].item.no >= items[j].item.no
    ensures !InOrder(items)
  {
  }

  /** Nothing has expired at the beginning of time. */
  lemma NothingExpires(items: seq<Item>, maxAge: u64)
    ensures DropExpired(items, maxAge, 0) == items
  {
  }

  /** An orderly run leads to a queue that is not in order. */
  ghost predicate Disorders(r: Registry, more: seq<Input>) {
    Orderly(r, more) && !InOrder(Queue(Sections(r, more)))
  }

  // ------------------------------------------------------------------------------------
  // Two dispatches that wait

  lemma TwoHeld(waiting: seq<Option<Item>>, d: nat, item: Item)
    requires OneWaiting(waiting) && d < |waiting| && waiting[d].Some?
    ensures Held((waiting + [Some(item)])[|waiting| := None]) == [waiting[d].value]
  {
    var after := (waiting + [Some(item)])[|waiting| := None];
    assert Init(after) == waiting && Last(after) == None;
    HeldOne(waiting, d);
  }

  /** A message pushed to the backlog is the last of it. */
  lemma PushedIsLast(backlog: seq<Item>, item: Item, maxAge: u64) returns (kept: seq<Item>)
    ensures Pushed(backlog, item, BACKLOG_MAX, maxAge, 0) == kept + [item]
  {
    kept := Newest(DropExpired(backlog, maxAge, 0), Cap(BACKLOG_MAX) - 1);
  }

  lemma OldestWaits(r: Registry, d: nat)
    requires Inv(r) && d < |r.waiting| && r.waiting[d].Some?
    ensures r.waiting[d].value.item.no < |r.dispatched|
  {
    hide OneActive, ClaimAgrees, InOrder;
    HeldOne(r.waiting, d);
    LastOfQueue(r.inflight, ConnHand(r), r.backlog, r.waiting[d].value);
  }

  /** The later of two waiting dispatches can come first. */
  lemma WaitingBreaks(r: Registry, input: Input) returns (more: seq<Input>)
    requires Inv(r) && input.Dispatch? && (r.claim.None? || input.fate.Closed?) && !NoneWaiting(r.waiting)
    ensures Disorders(Section(r, input), more)
    ensures var t := Sections(Section(r, input), more); Shaped(t) && |Queue(t)| <= |Queue(r)| + 2
  {
    var d :| 0 <= d < |r.waiting| && r.waiting[d].Some?;
    WaitingShaped(r, input, d);
    OldestWaits(r, d);
    TwoHeld(r.waiting, d, Last(Section(r, input).dispatched));
    hide Shaped, InOrder, Held, Pushed, Below;
    var first, s := r.waiting[d].value, Section(r, input);
    more := [Enqueue(|r.waiting|, 0)];
    OneSection(s, more[0]);
    var t := Section(s, more[0]);
    var kept := PushedIsLast(s.backlog, Last(s.dispatched), s.maxAge);
    LastTwo(t.inflight + ConnHand(t), kept, Last(s.dispatched), first);
    QueueOfThree(t.inflight, ConnHand(t), t.backlog, first);
  }

  lemma WaitingShaped(r: Registry, input: Input, d: nat)
    requires Shaped(r) && d < |r.waiting| && r.waiting[d].Some?
    requires input.Dispatch? && (r.claim.None? || input.fate.Closed?)
    ensures var t := Section(Section(r, input), Enqueue(|r.waiting|, 0)); Shaped(t) && |Queue(t)| <= |Queue(r)| + 2
  {
    hide Pushed;
    var s := Section(r, input);
    var t, item := Section(s, Enqueue(|r.waiting|, 0)), Last(s.dispatched);
    TwoHeld(r.waiting, d, item);
    HeldOne(r.waiting, d);
    hide Held;
    assert t.waiting == r.waiting + [None];
  }

  lemma LastOfQueue(a: seq<Item>, b: seq<Item>, c: seq<Item>, item: Item)
    ensures var all := a + (b + (c + [item])); all[|all| - 1] == item
  {
  }

  lemma LastTwo(a: seq<Item>, b: seq<Item>, x: Item, y: Item)
    requires x.item.no >= y.item.no
    ensures !InOrder(a + ((b + [x]) + [y]))
  {
    var all := a + ((b + [x]) + [y]);
    OutOfOrder(all, |all| - 2, |all| - 1);
  }

  // ------------------------------------------------------------------------------------
  // A message sent ahead of others

  lemma SentAheadBreaks(r: Registry, input: Input)
    requires Inv(r) && input.Dispatch? && r.claim.Some? && input.fate.Accepted? && Queue(r) != r.inflight
    ensures Disorders(Section(r, input), [])
    ensures Shaped(Section(r, input)) && |Queue(Section(r, input))| <= |Queue(r)| + 2
  {
    hide Held;
    var s := Section(r, input);
    var item, rest := Last(s.dispatched), ConnHand(r) + (r.backlog + Held(r.waiting));
    assert rest != [] by {
      assert r.inflight + [] == r.inflight;
    }
    assert Queue(r)[|r.inflight|] == rest[0];
    assert Queue(s)[|r.inflight|] == item && Queue(s)[|r.inflight| + 1] == rest[0];
    OutOfOrder(Queue(s), |r.inflight|, |r.inflight| + 1);
  }

  // ------------------------------------------------------------------------------------
  // A connection made while the one before still holds something

  /** How many messages are somewhere on their way. */
  function OnTheWay(s: Registry, c: nat): nat
    requires c + 2 == |s.conns|
  {
    |s.inflight| + |s.conns[c].InHand()| + |s.conns[c + 1].InHand()| + |s.backlog| + |Held(s.waiting)|
  }

  /** The connection at `c` has let go of the session, but not of its messages, and the next one
      has taken it over. */
  predicate Overlap(s: Registry, c: nat) {
    && c + 2 == |s.conns| && s.claim == Some(c + 1) && OneWaiting(s.waiting)
    && (forall k :: 0 <= k < c ==> HoldsNothing(s.conns[k]))
    && (s.conns[c].Released? || (s.conns[c].Returning? && s.conns[c].hand != []))
    && (s.conns[c + 1].Claimed? || s.conns[c + 1].Live?)
    && Below(s.inflight, |s.dispatched|) && Below(s.conns[c].InHand(), |s.dispatched|)
    && Below(s.backlog, |s.dispatched|) && Below(Held(s.waiting), |s.dispatched|)
  }

  /** And all that waited has been sent to it. */
  predicate Caught(s: Registry, c: nat) {
    Overlap(s, c) && s.conns[c + 1].Live? && s.backlog == [] && NoneWaiting(s.waiting)
  }

  lemma BelowParts(a: seq<Item>, b: seq<Item>, n: nat)
    ensures Below(a + b, n) <==> Below(a, n) && Below(b, n)
  {
    assert forall i :: 0 <= i < |a| ==> (a + b)[i] == a[i];
    assert forall i :: 0 <= i < |b| ==> (a + b)[|a| + i] == b[i];
  }

  lemma ConnectOverlaps(r: Registry)
    requires Inv(r) && !OrderlySection(r, Connect)
    ensures var s := Section(r, Connect);
            Overlap(s, |r.conns| - 1) && s.conns[|r.conns|].Claimed? && OnTheWay(s, |r.conns| - 1) == |Queue(r)|
  {
    hide InOrder, Held, OneWaiting;
    var n := |r.dispatched|;
    BelowParts(r.inflight, ConnHand(r) + (r.backlog + Held(r.waiting)), n);
    BelowParts(ConnHand(r), r.backlog + Held(r.waiting), n);
    BelowParts(r.backlog, Held(r.waiting), n);
    hide Below;
    var s := Section(r, Connect);
    assert s.conns[|r.conns| - 1] == Last(r.conns);
    assert forall k :: 0 <= k < |r.conns| - 1 ==> s.conns[k] == r.conns[k];
  }

  lemma QueueOne(s: Registry, c: nat, d: nat)
    requires Overlap(s, c) && d < |s.waiting| && s.waiting[d].Some?
    ensures var t := Section(s, Enqueue(d, 0));
            Overlap(t, c) && t.conns == s.conns && NoneWaiting(t.waiting) && OnTheWay(t, c) <= OnTheWay(s, c)
  {
    hide Pushed;
    HeldOne(s.waiting, d);
    HeldNone(s.waiting[d := None]);
    var t, item := Section(s, Enqueue(d, 0)), s.waiting[d].value;
    assert t == s.(waiting := s.waiting[d := None], backlog := t.backlog, evicted := t.evicted);
    BelowParts(s.backlog, [item], |s.dispatched|);
    TailBelow(t.backlog, s.backlog + [item], |s.dispatched|);
    hide Held, Below;
  }

  /** What waits in a dispatch is queued. */
  lemma QueueWaiting(s: Registry, c: nat) returns (more: seq<Input>)
    requires Overlap(s, c) && s.conns[c + 1].Claimed?
    ensures Orderly(s, more)
    ensures var t := Sections(s, more);
            Overlap(t, c) && t.conns == s.conns && NoneWaiting(t.waiting) && OnTheWay(t, c) <= OnTheWay(s, c)
  {
    hide Overlap, OnTheWay, Section;
    if NoneWaiting(s.waiting) {
      more := [];
    } else {
      var d :| 0 <= d < |s.waiting| && s.waiting[d].Some?;
      more := [Enqueue(d, 0)];
      OneSection(s, more[0]);
      QueueOne(s, c, d);
    }
  }

  lemma TailBelow(kept: seq<Item>, all: seq<Item>, n: nat)
    requires IsTail(kept, all) && Below(all, n)
    ensures Below(kept, n) && |kept| <= |all|
  {
  }

  /** The new connection takes what waits. */
  lemma TakeAll(s: Registry, c: nat)
    requires Overlap(s, c) && s.conns[c + 1].Claimed? && NoneWaiting(s.waiting)
    ensures var t := Section(Section(s, Drain(c + 1, 0)), Adopt(c + 1));
            && Caught(t, c) && t.conns[c] == s.conns[c] && t.inflight == s.inflight + s.backlog
            && OnTheWay(t, c) == OnTheWay(s, c)
  {
    hide Held;
    NothingExpires(s.backlog, s.maxAge);
    var u := Section(s, Drain(c + 1, 0));
    assert u.conns[c + 1] == Drained(s.backlog);
    BelowParts(s.inflight, s.backlog, |s.dispatched|);
    hide Below;
    var t := Section(u, Adopt(c + 1));
    assert t.conns[c] == s.conns[c] && t.conns[c + 1] == Live;
  }

  /** A message that is sent straight to the new connection. */
  const AHEAD: Input := Dispatch(0, "", "", Accepted)

  lemma AheadIsOrderly(s: Registry, c: nat)
    requires Caught(s, c)
    ensures OrderlySection(s, AHEAD)
  {
    HeldNone(s.waiting);
    NothingElse(s.inflight, ConnHand(s), s.backlog, Held(s.waiting));
  }

  lemma SendAhead(s: Registry, c: nat)
    requires Caught(s, c)
    ensures OrderlySection(s, AHEAD)
    ensures var t := Section(s, AHEAD);
            && Caught(t, c) && t.conns == s.conns && OnTheWay(t, c) == OnTheWay(s, c) + 1
            && t.inflight == s.inflight + [Last(t.dispatched)]
            && Last(t.dispatched).item.no == |s.dispatched| == |t.dispatched| - 1
  {
    AheadIsOrderly(s, c);
    HeldNone(s.waiting);
    var t, item := Section(s, AHEAD), Stamped(0, Message(|s.dispatched|, "", ""));
    assert t == s.(dispatched := s.dispatched + [item], inflight := s.inflight + [item]);
    BelowMore(s.inflight, item, |s.dispatched|);
    BelowMore(s.conns[c].InHand(), item, |s.dispatched|);
    BelowMore(s.backlog, item, |s.dispatched|);
    hide Held, Below, OrderlySection;
  }

  lemma BelowMore(items: seq<Item>, item: Item, n: nat)
    requires Below(items, n) && item.item.no == n
    ensures Below(items + [item], n + 1) && Below(items, n + 1)
  {
  }

  lemma CollectOne(u: Registry, c: nat)
    requires Caught(u, c) && u.conns[c].Released? && u.inflight != []
    ensures var t := Section(u, Collect(c)); Caught(t, c) && t.conns[c].Returning? && OnTheWay(t, c) == OnTheWay(u, c)
  {
    hide Held, Below;
    var t := Section(u, Collect(c));
    assert t == u.(conns := u.conns[c := Returning(u.inflight)], inflight := []);
    assert t.conns[c] == Returning(u.inflight) && t.conns[c + 1] == u.conns[c + 1];
    NoneBelow(|u.dispatched|);
  }

  lemma NoneBelow(n: nat)
    ensures Below([], n)
  {
  }

  /** The old connection collects what is in flight, the new connection's included. */
  lemma CollectAll(s: Registry, c: nat) returns (more: seq<Input>)
    requires Caught(s, c)
    ensures Orderly(s, more)
    ensures var t := Sections(s, more); Caught(t, c) && t.conns[c].Returning? && OnTheWay(t, c) <= OnTheWay(s, c) + 1
  {
    hide OnTheWay, Section, OrderlySection, Below;
    if s.conns[c].Returning? {
      more := [];
    } else if s.inflight == [] {
      SendAhead(s, c);
      var u := Section(s, AHEAD);
      CollectOne(u, c);
      more := [AHEAD] + [Collect(c)];
      CollectIsOrderly(u, c);
      FirstSection(s, AHEAD, [Collect(c)]);
    } else {
      more := [Collect(c)];
      CollectOne(s, c);
      CollectIsOrderly(s, c);
    }
  }

  lemma CollectIsOrderly(s: Registry, c: nat)
    ensures Orderly(s, [Collect(c)]) && Sections(s, [Collect(c)]) == Section(s, Collect(c))
  {
    hide Section;
    OneSection(s, Collect(c));
  }

  /** What the old connection gives back stands behind a newer message. */
  lemma GivesBackBehind(s: Registry, c: nat)
    requires Caught(s, c) && s.conns[c].Returning?
    ensures var more := [AHEAD, GiveBack(c, 0)];
            && Disorders(s, more) && Shaped(Sections(s, more)) && |Queue(Sections(s, more))| <= OnTheWay(s, c) + 1
  {
    hide Section, OnTheWay, Shaped, InOrder, Queue, Below, OrderlySection;
    SendAhead(s, c);
    var u := Section(s, AHEAD);
    GiveBackIsOrderly(u, c);
    FirstSection(s, AHEAD, [GiveBack(c, 0)]);
    assert [AHEAD] + [GiveBack(c, 0)] == [AHEAD, GiveBack(c, 0)];
    GivenBack(u, c);
  }

  lemma GiveBackIsOrderly(s: Registry, c: nat)
    ensures Orderly(s, [GiveBack(c, 0)]) && Sections(s, [GiveBack(c, 0)]) == Section(s, GiveBack(c, 0))
  {
    hide Section;
    OneSection(s, GiveBack(c, 0));
  }

  lemma GivenBackShaped(u: Registry, c: nat, t: Registry)
    requires Caught(u, c) && t.conns == u.conns[c := Gone] && t.claim == u.claim
    requires t.waiting == u.waiting && t.inflight == u.inflight
    ensures Shaped(t) && ConnHand(t) == []
  {
    hide Held, Below;
    assert Last(t.conns) == Live;
  }

  lemma GivenBack(u: Registry, c: nat)
    requires Caught(u, c) && u.conns[c].Returning? && u.inflight != []
    requires Last(u.inflight).item.no == |u.dispatched| - 1
    ensures var t := Section(u, GiveBack(c, 0));
            Shaped(t) && !InOrder(Queue(t)) && |Queue(t)| <= OnTheWay(u, c)
  {
    var hand := u.conns[c].hand;
    var t := Section(u, GiveBack(c, 0));
    assert hand + u.backlog == hand;
    hide Restored;
    var kept := Restored(hand, [], BACKLOG_MAX, u.maxAge, 0);
    assert t.backlog == kept && t.inflight == u.inflight && t.waiting == u.waiting;
    GivenBackShaped(u, c, t);
    HeldNone(u.waiting);
    hide Section, Shaped, Held, ConnHand, Queue, InOrder;
    KeptOf(hand, u.maxAge);
    assert hand + [] == hand;
    TailBelow(kept, hand, |u.dispatched|);
    QueueIs(t);
    Behind(u.inflight, kept, |u.dispatched|);
  }

  lemma KeptOf(hand: seq<Item>, maxAge: u64)
    requires hand != []
    ensures Restored(hand, [], BACKLOG_MAX, maxAge, 0) != []
  {
    NothingExpires(hand + [], maxAge);
  }

  lemma QueueIs(t: Registry)
    requires ConnHand(t) == [] && Held(t.waiting) == []
    ensures Queue(t) == t.inflight + t.backlog
  {
    assert [] + (t.backlog + []) == t.backlog;
  }

  lemma Behind(ahead: seq<Item>, kept: seq<Item>, n: nat)
    requires ahead != [] && kept != [] && Last(ahead).item.no == n - 1 && Below(kept, n)
    ensures !InOrder(ahead + kept)
  {
    assert (ahead + kept)[|ahead| - 1] == Last(ahead) && (ahead + kept)[|ahead|] == kept[0];
    OutOfOrder(ahead + kept, |ahead| - 1, |ahead|);
  }

  lemma ConnectBreaks(r: Registry) returns (more: seq<Input>)
    requires Inv(r) && !OrderlySection(r, Connect)
    ensures Disorders(Section(r, Connect), more)
    ensures var t := Sections(Section(r, Connect), more); Shaped(t) && |Queue(t)| <= |Queue(r)| + 2
  {
    ConnectOverlaps(r);
    hide Inv, OrderlySection, Section, Sections, Orderly, Overlap, OnTheWay, Shaped, Queue;
    var c, s := |r.conns| - 1, Section(r, Connect);
    var a := QueueWaiting(s, c);
    var s1 := Sections(s, a);
    TakeAll(s1, c);
    var b := [Drain(c + 1, 0), Adopt(c + 1)];
    var s2 := Section(Section(s1, b[0]), b[1]);
    TakingIsOrderly(s1, c);
    var d := CollectAll(s2, c);
    var s3 := Sections(s2, d);
    var e := [AHEAD, GiveBack(c, 0)];
    GivesBackBehind(s3, c);
    more := a + (b + (d + e));
    OrderlyInTwo(s2, d, e);
    OrderlyInTwo(s1, b, d + e);
    OrderlyInTwo(s, a, b + (d + e));
  }

  lemma TakingIsOrderly(s: Registry, c: nat)
    ensures var b := [Drain(c + 1, 0), Adopt(c + 1)];
            Orderly(s, b) && Sections(s, b) == Section(Section(s, b[0]), b[1])
  {
    hide Section;
    OneSection(Section(s, Drain(c + 1, 0)), Adopt(c + 1));
    FirstSection(s, Drain(c + 1, 0), [Adopt(c + 1)]);
    assert [Drain(c + 1, 0)] + [Adopt(c + 1)] == [Drain(c + 1, 0), Adopt(c + 1)];
  }

  // ------------------------------------------------------------------------------------
  // What is out of order is handed over out of order

  /** Nothing waits in a dispatch, and the queue does not overflow. */
  predicate Settled(s: Registry) {
    Shaped(s) && NoneWaiting(s.waiting) && |Queue(s)| <= BACKLOG_MAX
  }

  lemma Settles(s: Registry) returns (more: seq<Input>)
    requires Shaped(s) && |Queue(s)| <= BACKLOG_MAX
    ensures Orderly(s, more) && Settled(Sections(s, more)) && Queue(Sections(s, more)) == Queue(s)
  {
    if NoneWaiting(s.waiting) {
      more := [];
    } else {
      var d :| 0 <= d < |s.waiting| && s.waiting[d].Some?;
      more := [Enqueue(d, 0)];
      OneSection(s, more[0]);
      SettlesOne(s, d);
    }
  }

  lemma SettlesOne(s: Registry, d: nat)
    requires Shaped(s) && |Queue(s)| <= BACKLOG_MAX && d < |s.waiting| && s.waiting[d].Some?
    ensures var t := Section(s, Enqueue(d, 0)); Settled(t) && Queue(t) == Queue(s)
  {
    HeldOne(s.waiting, d);
    HeldNone(s.waiting[d := None]);
    var item := s.waiting[d].value;
    NothingExpires(s.backlog, s.maxAge);
    var t := Section(s, Enqueue(d, 0));
    EnqueueShaped(s, d, 0);
    assert t.backlog == s.backlog + [item];
    NothingAfter(s.inflight, ConnHand(s), s.backlog, item);
  }

  lemma NothingAfter(a: seq<Item>, b: seq<Item>, c: seq<Item>, item: Item)
    ensures a + (b + (c + [item])) == a + (b + ((c + [item]) + []))
  {
    assert (c + [item]) + [] == c + [item];
  }

  /** How far the last connection is from being gone. */
  function Steps(s: Registry): nat {
    if s.conns == [] then 0 else
    match Last(s.conns)
    case Drained(_) => 4
    case Acking(_) => 4
    case Claimed => 3
    case Live => 3
    case Released => 2
    case Returning(_) => 1
    case Gone => 0
  }

  /** The next section of the last connection. */
  function NextStep(s: Registry): Input
    requires Steps(s) > 0
  {
    var c := |s.conns| - 1;
    match s.conns[c]
    case Drained(_) => Adopt(c)
    case Acking(_) => SetMarkOf(c)
    case Claimed => Release(c)
    case Live => Release(c)
    case Released => Collect(c)
    case _ => GiveBack(c, 0)
  }

  lemma RunsKeeps(s: Registry)
    requires Settled(s) && Steps(s) == 4
    ensures var t := Section(s, NextStep(s)); Settled(t) && Queue(t) == Queue(s) && Steps(t) < Steps(s)
  {
    hide Held;
    var c, t := |s.conns| - 1, Section(s, NextStep(s));
    assert t.conns == s.conns[c := Live] && t.claim == s.claim && t.waiting == s.waiting && t.backlog == s.backlog;
    if s.conns[c].Drained? {
      Regrouped(s.inflight, s.conns[c].hand, s.backlog, Held(s.waiting));
    }
  }

  lemma ReleaseKeeps(s: Registry)
    requires Settled(s) && Steps(s) == 3
    ensures var t := Section(s, NextStep(s)); Settled(t) && Queue(t) == Queue(s) && Steps(t) < Steps(s)
  {
    hide Held;
    var c, t := |s.conns| - 1, Section(s, NextStep(s));
    assert t == s.(conns := s.conns[c := Released], claim := None);
  }

  lemma CollectKeeps(s: Registry)
    requires Settled(s) && Steps(s) == 2
    ensures var t := Section(s, NextStep(s)); Settled(t) && Queue(t) == Queue(s) && Steps(t) < Steps(s)
  {
    hide Held;
    var c, t := |s.conns| - 1, Section(s, NextStep(s));
    assert t == s.(conns := s.conns[c := Returning(s.inflight)], inflight := []);
    Moves(s.inflight, s.backlog + Held(s.waiting));
  }

  lemma Moves(a: seq<Item>, b: seq<Item>)
    ensures a + ([] + b) == [] + (a + b) && (a + b) + [] == a + b
  {
  }

  lemma GiveBackKeeps(s: Registry)
    requires Settled(s) && Steps(s) == 1
    ensures var t := Section(s, NextStep(s)); Settled(t) && Queue(t) == Queue(s) && Steps(t) < Steps(s)
  {
    var c, t := |s.conns| - 1, Section(s, NextStep(s));
    var hand := s.conns[c].hand;
    GoneShaped(s, c, t);
    hide Held, Shaped;
    assert t.backlog == hand + s.backlog by {
      NothingExpires(hand + s.backlog, s.maxAge);
    }
    GivesBack(hand, s.backlog, Held(s.waiting));
  }

  lemma GivesBack(a: seq<Item>, b: seq<Item>, c: seq<Item>)
    ensures [] + (a + (b + c)) == [] + ([] + ((a + b) + c))
  {
  }

  lemma StepsAreOrderly(s: Registry)
    requires Steps(s) > 0
    ensures OrderlySection(s, NextStep(s))
  {
  }

  lemma {:induction false} LetsGo(s: Registry) returns (more: seq<Input>)
    requires Settled(s)
    ensures Orderly(s, more)
    ensures var t := Sections(s, more); Settled(t) && Queue(t) == Queue(s) && Steps(t) == 0
    decreases Steps(s)
  {
    hide Settled, Queue, Section, OrderlySection, NextStep;
    if Steps(s) == 0 {
      more := [];
    } else {
      if Steps(s) == 4 {
        RunsKeeps(s);
      } else if Steps(s) == 3 {
        ReleaseKeeps(s);
      } else if Steps(s) == 2 {
        CollectKeeps(s);
      } else {
        GiveBackKeeps(s);
      }
      StepsAreOrderly(s);
      var rest := LetsGo(Section(s, NextStep(s)));
      FirstSection(s, NextStep(s), rest);
      more := [NextStep(s)] + rest;
    }
  }

  lemma NextConnection(s: Registry)
    requires Settled(s) && Steps(s) == 0
    ensures OrderlySection(s, Connect)
    ensures var t := Section(s, Connect); t.conns != [] && Last(t.conns) == Claimed && t.backlog == Queue(s)
  {
    HeldNone(s.waiting);
    assert [] + ([] + (s.backlog + [])) == s.backlog;
  }

  /** From any settled state an orderly run leads to a connection that is about to drain the queue. */
  lemma ComesToDrain(s: Registry) returns (more: seq<Input>)
    requires Shaped(s) && |Queue(s)| <= BACKLOG_MAX
    ensures Orderly(s, more)
    ensures var t := Sections(s, more); t.conns != [] && Last(t.conns).Claimed? && t.backlog == Queue(s)
  {
    hide Settled, Queue, Section, OrderlySection, Shaped;
    var a := Settles(s);
    var s1 := Sections(s, a);
    var b := LetsGo(s1);
    var s2 := Sections(s1, b);
    NextConnection(s2);
    OneSection(s2, Connect);
    OrderlyInTwo(s1, b, [Connect]);
    OrderlyInTwo(s, a, b + [Connect]);
    more := a + (b + [Connect]);
  }

  // ------------------------------------------------------------------------------------
  // The conditions are exact

  lemma GuardBroken(r: Registry, input: Input) returns (more: seq<Input>)
    requires Inv(r) && !OrderlySection(r, input)
    ensures Disorders(Section(r, input), more)
    ensures var t := Sections(Section(r, input), more); Shaped(t) && |Queue(t)| <= |Queue(r)| + 2
  {
    hide Inv, Section, Disorders, Shaped, Queue;
    if input.Connect? {
      more := ConnectBreaks(r);
    } else if r.claim.None? || input.fate.Closed? {
      more := WaitingBreaks(r, input);
    } else {
      SentAheadBreaks(r, input);
      more := [];
    }
  }

  /** After this run, and every orderly one, what is still to come stands in the order of dispatch. */
  ghost predicate KeepsOrder(s: Registry) {
    forall more :: Orderly(s, more) ==> InOrder(Queue(Sections(s, more)))
  }

  /**
    In every state that an orderly run reaches: a section is orderly, if and only if after it every
    orderly run leaves the unacknowledged messages to come in the order of dispatch.
   */
  lemma OrderlyExactly(r: Registry, input: Input)
    requires Inv(r)
    ensures OrderlySection(r, input) <==> KeepsOrder(Section(r, input))
  {
    hide OrderlySection, Section, Sections, Orderly, InOrder, Queue, Shaped;
    if OrderlySection(r, input) {
      SectionOrdered(r, input);
      forall more | Orderly(Section(r, input), more) ensures InOrder(Queue(Sections(Section(r, input), more))) {
        SectionsOrdered(Section(r, input), more);
      }
    } else {
      var more := GuardBroken(r, input);
    }
  }

  /** A connection that drains in this state is handed messages in the order of dispatch. */
  predicate DrainsInOrder(s: Registry, now: u64) {
    s.conns != [] && Last(s.conns).Claimed? ==> InOrder(OnDrain(s, |s.conns| - 1, now).conns[|s.conns| - 1].hand)
  }

  ghost predicate AlwaysDrainsInOrder(s: Registry) {
    forall more, now: u64 :: Orderly(s, more) ==> DrainsInOrder(Sections(s, more), now)
  }

  /**
    And as long as the queue does not overflow, if and only if after it every orderly run drains
    them in the order of dispatch.
   */
  lemma DrainsExactly(r: Registry, input: Input)
    requires Inv(r) && |Queue(r)| + 2 <= BACKLOG_MAX
    ensures OrderlySection(r, input) <==> AlwaysDrainsInOrder(Section(r, input))
  {
    hide OrderlySection, Section, Sections, Orderly, InOrder, Queue, Shaped, DrainsInOrder, Inv;
    if OrderlySection(r, input) {
      SectionOrdered(r, input);
      forall more, now: u64 | Orderly(Section(r, input), more) ensures DrainsInOrder(Sections(Section(r, input), more), now) {
        SectionsOrdered(Section(r, input), more);
        InvDrains(Sections(Section(r, input), more), now);
      }
    } else {
      var s := Section(r, input);
      var a := GuardBroken(r, input);
      var b := ComesToDrain(Sections(s, a));
      OrderlyInTwo(s, a, b);
      OutOfOrderDrains(Sections(s, a + b));
      assert !DrainsInOrder(Sections(s, a + b), 0);
    }
  }

  lemma InvDrains(s: Registry, now: u64)
    requires Inv(s)
    ensures DrainsInOrder(s, now)
  {
    hide Inv, InOrder;
    if s.conns != [] && Last(s.conns).Claimed? {
      DrainedInOrder(s, |s.conns| - 1, now);
      InOrderParts(s.inflight, DropExpired(s.backlog, s.maxAge, now));
    }
  }

  lemma OutOfOrderDrains(s: Registry)
    requires s.conns != [] && Last(s.conns).Claimed? && !InOrder(s.backlog)
    ensures !DrainsInOrder(s, 0)
  {
    hide InOrder;
    NothingExpires(s.backlog, s.maxAge);
  }
}
