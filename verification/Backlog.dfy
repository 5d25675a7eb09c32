/**
  The bounded queue of items for a session that is away (crates/silta/src/backlog.rs):
  bounded by count and by age, the oldest out first.
 */
module Backlogs {
  import opened Prelude

  datatype Stamped<+T> = Stamped(ts: u64, item: T)

  predicate Expired(ts: u64, maxAge: u64, now: u64) {
    SaturatingAdd(ts, maxAge) < now
  }

  /** `kept` is what is left of `all` when the front goes. */
  ghost predicate IsTail<T>(kept: seq<T>, all: seq<T>) {
    |kept| <= |all| && kept == all[|all| - |kept|..]
  }

  lemma TailOfTail<T>(a: seq<T>, b: seq<T>, c: seq<T>)
    requires IsTail(a, b) && IsTail(b, c)
    ensures IsTail(a, c)
  {
    assert a == c[|c| - |b|..][|b| - |a|..];
  }

  lemma TailWithOneMore<T>(a: seq<T>, b: seq<T>, x: T)
    requires IsTail(a, b)
    ensures IsTail(a + [x], b + [x])
  {
  }

  /** Eviction by age, which looks at the front only. */
  function DropExpired<T>(items: seq<Stamped<T>>, maxAge: u64, now: u64): (kept: seq<Stamped<T>>)
    ensures IsTail(kept, items)
  {
    if items != [] && Expired(items[0].ts, maxAge, now) then DropExpired(items[1..], maxAge, now) else items
  }

  /** The last `n` of the items. */
  function Newest<T>(items: seq<T>, n: nat): (kept: seq<T>)
    ensures |kept| == (if |items| <= n then |items| else n) && IsTail(kept, items)
  {
    if |items| <= n then items else items[|items| - n..]
  }

  function Cap(maxLen: nat): nat {
    Max(maxLen, 1)
  }

  function Pushed<T>(items: seq<Stamped<T>>, item: Stamped<T>, maxLen: nat, maxAge: u64, now: u64): (kept: seq<Stamped<T>>)
    ensures IsTail(kept, items + [item])
  {
    var unexpired := DropExpired(items, maxAge, now);
    var newest := Newest(unexpired, Cap(maxLen) - 1);
    TailOfTail(newest, unexpired, items);
    TailWithOneMore(newest, items, item);
    newest + [item]
  }

  function Restored<T>(back: seq<Stamped<T>>, items: seq<Stamped<T>>, maxLen: nat, maxAge: u64, now: u64): (kept: seq<Stamped<T>>)
    ensures IsTail(kept, back + items)
  {
    var unexpired := DropExpired(back + items, maxAge, now);
    TailOfTail(Newest(unexpired, Cap(maxLen)), unexpired, back + items);
    Newest(unexpired, Cap(maxLen))
  }

  lemma NewestOfTail<T>(items: seq<T>, n: nat)
    requires |items| > n
    ensures Newest(items[1..], n) == Newest(items, n)
  {
  }

  lemma NewestWithOneMore<T>(items: seq<T>, item: T, n: nat)
    ensures Newest(items + [item], n + 1) == Newest(items, n) + [item]
  {
  }

  class Backlog<T> {
    var items: seq<Stamped<T>>
    const maxLen: nat
    const maxAge: u64

    constructor (maxLen: nat, maxAge: u64)
      ensures items == [] && this.maxLen == maxLen && this.maxAge == maxAge
    {
      this.items := [];
      this.maxLen := maxLen;
      this.maxAge := maxAge;
    }

    /** Queues an item; `evicted` older ones had to go. */
    method Push(ts: u64, item: T, now: u64) returns (evicted: nat)
      modifies this
      ensures items == Pushed(old(items), Stamped(ts, item), maxLen, maxAge, now)
      ensures evicted == |old(items)| + 1 - |items|
    {
      evicted := EvictExpired(now);
      ghost var unexpired := items;
      while |items| >= Max(maxLen, 1)
        invariant Newest(items, Cap(maxLen) - 1) == Newest(unexpired, Cap(maxLen) - 1)
        invariant evicted == |old(items)| - |items|
      {
        NewestOfTail(items, Cap(maxLen) - 1);
        items := items[1..];
        evicted := evicted + 1;
      }
      items := items + [Stamped(ts, item)];
    }

    /** Empties the queue into the caller's hands, less what has grown too old at its front. */
    method Drain(now: u64) returns (taken: seq<Stamped<T>>, evicted: nat)
      modifies this
      ensures taken == DropExpired(old(items), maxAge, now) && items == []
      ensures evicted == |old(items)| - |taken|
    {
      evicted := EvictExpired(now);
      taken := items;
      items := [];
    }

    /** The queue as if these items had never been taken from it. */
    method Restore(back: seq<Stamped<T>>, now: u64) returns (evicted: nat)
      modifies this
      ensures items == Restored(back, old(items), maxLen, maxAge, now)
      ensures evicted == |back| + |old(items)| - |items|
    {
      var i := |back|;
      while i > 0
        invariant 0 <= i <= |back| && items == back[i..] + old(items)
      {
        i := i - 1;
        items := [back[i]] + items;
      }
      assert items == back + old(items);
      evicted := EvictExpired(now);
      ghost var unexpired := items;
      while |items| > Max(maxLen, 1)
        invariant Newest(items, Cap(maxLen)) == Newest(unexpired, Cap(maxLen))
        invariant evicted == |back| + |old(items)| - |items|
      {
        NewestOfTail(items, Cap(maxLen));
        items := items[1..];
        evicted := evicted + 1;
      }
    }

    method EvictExpired(now: u64) returns (evicted: nat)
      modifies this
      ensures items == DropExpired(old(items), maxAge, now)
      ensures evicted == |old(items)| - |items|
    {
      evicted := 0;
      while items != [] && SaturatingAdd(items[0].ts, maxAge) < now
        invariant DropExpired(items, maxAge, now) == DropExpired(old(items), maxAge, now)
        invariant evicted == |old(items)| - |items|
        decreases |items|
      {
        items := items[1..];
        evicted := evicted + 1;
      }
    }
  }

  // ------------------------------------------------------------------------------------
  // Eviction by age is exact when the timestamps do not decrease

  /** The items within the age limit, wherever they are. */
  function Unexpired<T>(items: seq<Stamped<T>>, maxAge: u64, now: u64): (kept: seq<Stamped<T>>)
    ensures |kept| <= |items|
  {
    if items == [] then []
    else (if Expired(items[0].ts, maxAge, now) then [] else [items[0]]) + Unexpired(items[1..], maxAge, now)
  }

  predicate Ordered<T>(items: seq<Stamped<T>>) {
    forall i, j :: 0 <= i < j < |items| ==> items[i].ts <= items[j].ts
  }

  /** No expired item stands behind one that is not. */
  predicate ExpiredFirst<T>(items: seq<Stamped<T>>, maxAge: u64, now: u64) {
    forall i, j :: 0 <= i < j < |items| && Expired(items[j].ts, maxAge, now) ==> Expired(items[i].ts, maxAge, now)
  }

  lemma {:induction false} NoneExpired<T>(items: seq<Stamped<T>>, maxAge: u64, now: u64)
    requires forall i :: 0 <= i < |items| ==> !Expired(items[i].ts, maxAge, now)
    ensures Unexpired(items, maxAge, now) == items
  {
    if items != [] {
      NoneExpired(items[1..], maxAge, now);
    }
  }

  lemma {:induction false} UnexpiredShrinks<T>(items: seq<Stamped<T>>, maxAge: u64, now: u64, i: nat)
    requires i < |items| && Expired(items[i].ts, maxAge, now)
    ensures |Unexpired(items, maxAge, now)| < |items|
  {
    if i > 0 {
      UnexpiredShrinks(items[1..], maxAge, now, i - 1);
    }
  }

  /** Looking at the front only evicts exactly the expired items, if and only if no expired
      one stands behind one that is not. */
  lemma {:induction false} FrontEvictionExact<T>(items: seq<Stamped<T>>, maxAge: u64, now: u64)
    ensures DropExpired(items, maxAge, now) == Unexpired(items, maxAge, now) <==> ExpiredFirst(items, maxAge, now)
  {
    if items == [] {
    } else if Expired(items[0].ts, maxAge, now) {
      FrontEvictionExact(items[1..], maxAge, now);
      assert ExpiredFirst(items, maxAge, now) <== ExpiredFirst(items[1..], maxAge, now) by {
        if ExpiredFirst(items[1..], maxAge, now) {
          forall i, j | 0 <= i < j < |items| && Expired(items[j].ts, maxAge, now)
            ensures Expired(items[i].ts, maxAge, now)
          {
            if i > 0 {
              assert items[i] == items[1..][i - 1] && items[j] == items[1..][j - 1];
            }
          }
        }
      }
      assert ExpiredFirst(items, maxAge, now) ==> ExpiredFirst(items[1..], maxAge, now) by {
        assert forall i :: 0 <= i < |items| - 1 ==> items[1..][i] == items[i + 1];
      }
    } else if i :| 0 <= i < |items| && Expired(items[i].ts, maxAge, now) {
      UnexpiredShrinks(items, maxAge, now, i);
    } else {
      NoneExpired(items, maxAge, now);
    }
  }

  /** With timestamps that do not decrease, a push keeps the unexpired items, then the newest
      of them and the new one up to the cap. */
  lemma PushKeepsTheNewest<T>(items: seq<Stamped<T>>, item: Stamped<T>, maxLen: nat, maxAge: u64, now: u64)
    requires Ordered(items)
    ensures Pushed(items, item, maxLen, maxAge, now) == Newest(Unexpired(items, maxAge, now) + [item], Cap(maxLen))
  {
    OrderedExpiresInOrder(items, maxAge, now);
    NewestWithOneMore(Unexpired(items, maxAge, now), item, Cap(maxLen) - 1);
  }

  lemma OrderedExpiresInOrder<T>(items: seq<Stamped<T>>, maxAge: u64, now: u64)
    requires Ordered(items)
    ensures DropExpired(items, maxAge, now) == Unexpired(items, maxAge, now)
  {
    assert ExpiredFirst(items, maxAge, now);
    FrontEvictionExact(items, maxAge, now);
  }

  lemma Associates<T>(a: seq<T>, b: seq<T>, c: seq<T>)
    ensures a + (b + c) == (a + b) + c
  {
  }

  lemma {:induction false} UnexpiredSplits<T>(a: seq<Stamped<T>>, b: seq<Stamped<T>>, maxAge: u64, now: u64)
    ensures Unexpired(a + b, maxAge, now) == Unexpired(a, maxAge, now) + Unexpired(b, maxAge, now)
  {
    if a == [] {
      assert a + b == b;
    } else {
      UnexpiredSplits(a[1..], b, maxAge, now);
      var first := if Expired(a[0].ts, maxAge, now) then [] else [a[0]];
      assert (a + b)[0] == a[0] && (a + b)[1..] == a[1..] + b;
      assert Unexpired(a + b, maxAge, now) == first + Unexpired(a[1..] + b, maxAge, now);
      Associates(first, Unexpired(a[1..], maxAge, now), Unexpired(b, maxAge, now));
    }
  }

  /** And a restore keeps the unexpired of both, the items put back in front, up to the cap. */
  lemma RestoreKeepsTheNewest<T>(
    back: seq<Stamped<T>>, items: seq<Stamped<T>>, maxLen: nat, maxAge: u64, now: u64)
    requires Ordered(back + items)
    ensures Restored(back, items, maxLen, maxAge, now)
            == Newest(Unexpired(back, maxAge, now) + Unexpired(items, maxAge, now), Cap(maxLen))
  {
    OrderedExpiresInOrder(back + items, maxAge, now);
    UnexpiredSplits(back, items, maxAge, now);
  }

  // ------------------------------------------------------------------------------------
  // What the age limit means

  /** No more than the limit has gone by since the item's time. */
  predicate Young<T>(item: Stamped<T>, maxAge: u64, now: u64) {
    now - item.ts <= maxAge
  }

  /** `k` is where the items that are young enough begin. */
  predicate YoungFrom<T>(items: seq<Stamped<T>>, maxAge: u64, now: u64, k: nat) {
    k <= |items| && forall i :: 0 <= i < |items| ==> (i >= k <==> Young(items[i], maxAge, now))
  }

  lemma ExpiredMeans<T>(item: Stamped<T>, maxAge: u64, now: u64)
    ensures Expired(item.ts, maxAge, now) <==> !Young(item, maxAge, now)
  {
  }

  lemma {:induction false} YoungBegin<T>(items: seq<Stamped<T>>, maxAge: u64, now: u64) returns (k: nat)
    requires Ordered(items)
    ensures YoungFrom(items, maxAge, now, k) && DropExpired(items, maxAge, now) == items[k..]
  {
    if items == [] {
      k := 0;
    } else {
      ExpiredMeans(items[0], maxAge, now);
      if Young(items[0], maxAge, now) {
        k := 0;
        assert items[0..] == items;
      } else {
        var n := YoungBegin(items[1..], maxAge, now);
        k := n + 1;
        assert forall i :: 0 < i < |items| ==> items[i] == items[1..][i - 1];
        assert items[1..][n..] == items[k..];
      }
    }
  }

  /** In order of time, `Drain` hands out exactly the items that no more than the limit has gone by for. */
  lemma DrainsTheYoung<T>(items: seq<Stamped<T>>, maxAge: u64, now: u64)
    requires Ordered(items)
    ensures exists k: nat :: YoungFrom(items, maxAge, now, k) && DropExpired(items, maxAge, now) == items[k..]
  {
    var k := YoungBegin(items, maxAge, now);
  }

  /** And `Push` keeps those, less the oldest over the cap, with the new item after them. */
  lemma PushKeepsTheYoung<T>(items: seq<Stamped<T>>, item: Stamped<T>, maxLen: nat, maxAge: u64, now: u64)
    requires Ordered(items)
    ensures exists k: nat :: YoungFrom(items, maxAge, now, k)
              && Pushed(items, item, maxLen, maxAge, now) == Newest(items[k..] + [item], if maxLen == 0 then 1 else maxLen)
  {
    var k := YoungBegin(items, maxAge, now);
    NewestWithOneMore(items[k..], item, Cap(maxLen) - 1);
  }

  /** And `Restore` keeps those of both, less the oldest over the cap. */
  lemma RestoreKeepsTheYoung<T>(back: seq<Stamped<T>>, items: seq<Stamped<T>>, maxLen: nat, maxAge: u64, now: u64)
    requires Ordered(back + items)
    ensures exists k: nat :: YoungFrom(back + items, maxAge, now, k)
              && Restored(back, items, maxLen, maxAge, now) == Newest((back + items)[k..], if maxLen == 0 then 1 else maxLen)
  {
    var k := YoungBegin(back + items, maxAge, now);
  }
}
