/**
  The delivery watermarks (crates/siltad/src/daemon.rs, `Marks`) and the verdict on a message
  that comes again after a restart (crates/silta/src/replay.rs).
 */
module Replay {
  import opened Prelude

  /** An acknowledged event, as the watermarks see it. */
  datatype Delivered = Delivered(room: string, ts: u64, id: string)

  datatype Watermark = Watermark(ts: u64, id: string)

  type Marks = map<string, Watermark>

  /** An acknowledgement with an older timestamp leaves the mark of its room alone. */
  function SetMark(marks: Marks, d: Delivered): Marks {
    if d.room in marks && marks[d.room].ts > d.ts then marks else marks[d.room := Watermark(d.ts, d.id)]
  }

  /** `at` is the last event acknowledged in the room at the largest timestamp acknowledged
      there. */
  predicate IsLatest(history: seq<Delivered>, room: string, at: int) {
    && 0 <= at < |history| && history[at].room == room
    && forall j :: 0 <= j < |history| && history[j].room == room ==>
         history[j].ts < history[at].ts || (history[j].ts == history[at].ts && j <= at)
  }

  lemma LatestUnique(history: seq<Delivered>, room: string, a: int, b: int)
    requires IsLatest(history, room, a) && IsLatest(history, room, b)
    ensures a == b
  {
  }

  /** The marks are what the history of acknowledgements says. */
  ghost predicate MarksTell(marks: Marks, history: seq<Delivered>) {
    && (forall room :: room in marks ==>
          exists at :: IsLatest(history, room, at) && marks[room] == Watermark(history[at].ts, history[at].id))
    && (forall j :: 0 <= j < |history| ==> history[j].room in marks)
  }

  lemma LatestExtends(history: seq<Delivered>, d: Delivered, room: string, at: int)
    requires IsLatest(history, room, at) && (d.room != room || d.ts < history[at].ts)
    ensures 0 <= at < |history| && IsLatest(history + [d], room, at)
  {
  }

  /** The last acknowledgement is the latest of its room, if none there has a larger timestamp. */
  lemma LatestNow(history: seq<Delivered>, d: Delivered)
    requires forall j :: 0 <= j < |history| && history[j].room == d.room ==> history[j].ts <= d.ts
    ensures IsLatest(history + [d], d.room, |history|)
  {
  }

  lemma LatestBounds(history: seq<Delivered>, room: string, at: int)
    requires IsLatest(history, room, at)
    ensures forall j :: 0 <= j < |history| && history[j].room == room ==> history[j].ts <= history[at].ts
    ensures 0 <= at < |history|
  {
  }

  lemma RoomTells(marks: Marks, history: seq<Delivered>, d: Delivered, room: string)
    requires MarksTell(marks, history) && room in SetMark(marks, d)
    ensures var longer := history + [d];
            exists at :: IsLatest(longer, room, at) && SetMark(marks, d)[room] == Watermark(longer[at].ts, longer[at].id)
  {
    var longer := history + [d];
    assert longer[|history|] == d;
    if room in marks {
      var at :| IsLatest(history, room, at) && marks[room] == Watermark(history[at].ts, history[at].id);
      LatestBounds(history, room, at);
      assert longer[at] == history[at];
      if room != d.room || marks[room].ts > d.ts {
        LatestExtends(history, d, room, at);
      } else {
        LatestNow(history, d);
      }
    } else {
      LatestNow(history, d);
    }
  }

  lemma SetMarkTells(marks: Marks, history: seq<Delivered>, d: Delivered)
    requires MarksTell(marks, history)
    ensures MarksTell(SetMark(marks, d), history + [d])
  {
    var after, longer := SetMark(marks, d), history + [d];
    forall room | room in after
      ensures exists at :: IsLatest(longer, room, at) && after[room] == Watermark(longer[at].ts, longer[at].id)
    {
      RoomTells(marks, history, d, room);
    }
  }

  datatype Verdict = Deliver(behindStart: nat) | AlreadyDelivered | TooOld

  /** `u64` addition as a release build does it. */
  function WrappingAdd(a: u64, b: u64): u64 {
    (a + b) % (U64_MAX + 1)
  }

  function Judge(ts: u64, id: string, mark: Option<Watermark>, startedAt: u64, window: u64): Verdict {
    if mark.Some? && (ts < mark.value.ts || (ts == mark.value.ts && id == mark.value.id)) then AlreadyDelivered
    else if WrappingAdd(ts, window) < startedAt then TooOld
    else Deliver(if startedAt > ts then startedAt - ts else 0)
  }

  function MarkIn(marks: Marks, room: string): Option<Watermark> {
    if room in marks then Some(marks[room]) else None
  }

  /** A message is taken as delivered before exactly when a later one of its room was
      acknowledged, or when it carries the id acknowledged last at the largest timestamp. */
  lemma RejectedExactly(marks: Marks, history: seq<Delivered>, room: string, ts: u64, id: string, startedAt: u64, window: u64)
    requires MarksTell(marks, history)
    ensures Judge(ts, id, MarkIn(marks, room), startedAt, window).AlreadyDelivered? <==>
            || (exists j :: 0 <= j < |history| && history[j].room == room && ts < history[j].ts)
            || (exists at :: IsLatest(history, room, at) && history[at].ts == ts && history[at].id == id)
  {
    if room in marks {
      var at :| IsLatest(history, room, at) && marks[room] == Watermark(history[at].ts, history[at].id);
      assert history[at].room == room;
      forall other | IsLatest(history, room, other) ensures other == at {
        LatestUnique(history, room, other, at);
      }
    }
  }

  /** An acknowledged event would come again, within the window, exactly when another one
      with the same timestamp was acknowledged after it under another id and nothing later
      was: the mark keeps one id per room. */
  lemma ComesAgainExactly(marks: Marks, history: seq<Delivered>, i: nat, startedAt: u64, window: u64)
    requires MarksTell(marks, history) && i < |history|
    ensures var d := history[i];
            !Judge(d.ts, d.id, MarkIn(marks, d.room), startedAt, window).AlreadyDelivered? <==>
            exists at :: IsLatest(history, d.room, at) && at > i && history[at].ts == d.ts && history[at].id != d.id
  {
    hide WrappingAdd;
    var d := history[i];
    var at :| IsLatest(history, d.room, at) && marks[d.room] == Watermark(history[at].ts, history[at].id);
    assert d.ts < history[at].ts || (d.ts == history[at].ts && i <= at);
    forall other | IsLatest(history, d.room, other) ensures other == at {
      LatestUnique(history, d.room, other, at);
    }
  }

  /** Two events of one room are acknowledged with one timestamp, and the first would come again. */
  lemma FirstComesAgain()
    ensures var first, second := Delivered("!r", 5_000, "$a"), Delivered("!r", 5_000, "$b");
            var marks := SetMark(SetMark(map[], first), second);
            && MarksTell(marks, [first, second])
            && Judge(first.ts, first.id, MarkIn(marks, first.room), 6_000, 10_000) == Deliver(1_000)
  {
    hide MarksTell;
    var first, second := Delivered("!r", 5_000, "$a"), Delivered("!r", 5_000, "$b");
    assert [] + [first] == [first] && [first] + [second] == [first, second];
    NothingMarked();
    SetMarkTells(map[], [], first);
    SetMarkTells(SetMark(map[], first), [first], second);
    var marks := SetMark(SetMark(map[], first), second);
    assert marks["!r"] == Watermark(5_000, "$b");
    assert (5_000 + 10_000) % (U64_MAX + 1) == 15_000;
  }

  lemma NothingMarked()
    ensures MarksTell(map[], [])
  {
  }

  /**
    A message that was not delivered before is too old, if and only if it was sent more than the
    window before the start, or the sum of its timestamp and the window wraps around below the
    start; otherwise it is delivered, with how long before the start it was sent.
   */
  lemma WindowExactly(ts: u64, id: string, mark: Option<Watermark>, startedAt: u64, window: u64)
    requires !Judge(ts, id, mark, startedAt, window).AlreadyDelivered?
    ensures var v := Judge(ts, id, mark, startedAt, window);
            && (ts + window <= U64_MAX ==> (v == TooOld <==> startedAt - ts > window))
            && (ts + window > U64_MAX ==> (v == TooOld <==> ts + window - (U64_MAX + 1) < startedAt))
            && (v != TooOld ==> v.Deliver? && v.behindStart == Max(0, startedAt - ts))
  {
    if ts + window > U64_MAX {
      assert (ts + window) % (U64_MAX + 1) == ts + window - (U64_MAX + 1);
    }
  }

  /** With the largest window, which a configured window in seconds saturates to, a message
      of one second before the start is taken as too old. */
  lemma LargestWindowDropsAll()
    ensures Judge(4_000, "$a", None, 5_000, U64_MAX) == TooOld
  {
    assert (4_000 + U64_MAX) % (U64_MAX + 1) == 3_999;
  }
}
