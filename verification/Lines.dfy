/**
  Line framing over a byte stream (crates/silta/src/line.rs): the reader that takes the
  stream in whatever pieces it arrives, and keeps a partial line when a call is abandoned,
  against the plain split of the whole stream at its newlines. UTF-8 validation and the JSON
  inside a line are left out.
 */
module Lines {
  import opened Prelude

  const NEWLINE: byte := 10
  const RETURN: byte := 13

  datatype Answer = Line(bytes: seq<byte>) | Eof | TooLong | Abandoned

  /** A line without the carriage return before its newline. */
  function Finish(line: seq<byte>): seq<byte> {
    if line != [] && line[|line| - 1] == RETURN then line[..|line| - 1] else line
  }

  /** The position of the first newline, or the length. */
  function FirstNewline(bytes: seq<byte>): (i: nat)
    ensures i <= |bytes| && (i < |bytes| ==> bytes[i] == NEWLINE)
    ensures forall j :: 0 <= j < i ==> bytes[j] != NEWLINE
  {
    if bytes == [] || bytes[0] == NEWLINE then 0 else 1 + FirstNewline(bytes[1..])
  }

  /** What the next call answers, given all the bytes still to come. */
  function NextOf(bytes: seq<byte>, max: nat): Answer {
    if bytes == [] then Eof
    else if FirstNewline(bytes) > max then TooLong
    else Line(Finish(bytes[..FirstNewline(bytes)]))
  }

  /** The bytes still to come after that call; a line that is too long stays. */
  function AfterNext(bytes: seq<byte>, max: nat): seq<byte> {
    if !NextOf(bytes, max).Line? then bytes
    else if FirstNewline(bytes) == |bytes| then []
    else bytes[FirstNewline(bytes) + 1..]
  }

  lemma FirstNewlineIs(bytes: seq<byte>, i: nat)
    requires i <= |bytes| && (i < |bytes| ==> bytes[i] == NEWLINE)
    requires forall j :: 0 <= j < i ==> bytes[j] != NEWLINE
    ensures FirstNewline(bytes) == i
  {
  }

  /** The stream ends after what is buffered. */
  lemma EndOfStream(buf: seq<byte>, max: nat)
    requires |buf| <= max && NEWLINE !in buf
    ensures NextOf(buf, max) == if buf == [] then Eof else Line(Finish(buf))
    ensures AfterNext(buf, max) == []
  {
    FirstNewlineIs(buf, |buf|);
    assert buf[..|buf|] == buf;
  }

  /** A line, its newline, and what comes after. */
  lemma LineThenNewline(line: seq<byte>, after: seq<byte>, max: nat)
    requires NEWLINE !in line
    ensures var bytes := line + ([NEWLINE] + after);
            if |line| > max then NextOf(bytes, max) == TooLong && AfterNext(bytes, max) == bytes
            else NextOf(bytes, max) == Line(Finish(line)) && AfterNext(bytes, max) == after
  {
    var bytes := line + ([NEWLINE] + after);
    FirstNewlineIs(bytes, |line|);
    assert bytes[..|line|] == line && bytes[|line| + 1..] == after;
  }

  lemma AtNewline(buf: seq<byte>, available: seq<byte>, stream: seq<byte>, i: nat)
    requires i < |available| && available[i] == NEWLINE
    ensures buf + (available + stream) == (buf + available[..i]) + ([NEWLINE] + (available[i + 1..] + stream))
  {
    assert available == available[..i] + ([NEWLINE] + available[i + 1..]);
  }

  /** The bytes available hold no newline and go beyond the cap. */
  lemma LineTooLong(buf: seq<byte>, available: seq<byte>, stream: seq<byte>, max: nat)
    requires NEWLINE !in buf && FirstNewline(available) == |available| && |buf| + |available| > max
    ensures var rest := buf + (available + stream); NextOf(rest, max) == TooLong && AfterNext(rest, max) == rest
  {
    var rest := buf + (available + stream);
    assert forall j :: 0 <= j < |buf| + |available| ==> rest[j] != NEWLINE;
  }

  lemma Shift(buf: seq<byte>, available: seq<byte>, stream: seq<byte>)
    ensures buf + (available + stream) == (buf + available) + ([] + stream)
  {
  }

  class LineReader {
    var buf: seq<byte>
    /** What the buffered reader below has read and not handed over. */
    var available: seq<byte>
    /** What the stream has yet to deliver. */
    var stream: seq<byte>
    const max: nat

    ghost predicate Valid()
      reads this
    {
      |buf| <= max && NEWLINE !in buf
    }

    ghost function Rest(): seq<byte>
      reads this
    {
      buf + (available + stream)
    }

    constructor (stream: seq<byte>, max: nat)
      ensures Valid() && Rest() == stream && this.max == max
    {
      this.stream := stream;
      this.max := max;
      buf, available := [], [];
    }

    /** Reads up to `size` bytes more when nothing is available, at least one unless the stream
        has ended. */
    method FillBuf(size: nat)
      modifies this`available, this`stream
      ensures available + stream == old(available + stream)
      ensures available == [] ==> stream == []
    {
      if available == [] && stream != [] {
        var n := if 0 < size <= |stream| then size else |stream|;
        available := stream[..n];
        stream := stream[n..];
      }
    }

    /** The next line, for any sizes in which the stream arrives, and abandoned when it has to
        wait for more than `patience` reads. */
    method NextLine(sizes: seq<nat>, patience: nat) returns (answer: Answer)
      requires Valid()
      modifies this
      ensures Valid()
      ensures answer.Abandoned? ==> Rest() == old(Rest())
      ensures !answer.Abandoned? ==> answer == NextOf(old(Rest()), max) && Rest() == AfterNext(old(Rest()), max)
    {
      var taken := 0;
      while true
        invariant Valid() && Rest() == old(Rest())
        decreases |available| + |stream|
      {
        if taken == patience {
          return Abandoned;
        }
        FillBuf(if taken < |sizes| then sizes[taken] else 0);
        taken := taken + 1;
        if available == [] {
          EndOfStream(buf, max);
          assert Rest() == buf;
          if buf == [] {
            return Eof;
          }
          answer := Line(Finish(buf));
          buf := [];
          return;
        }
        var i := FirstNewline(available);
        if i < |available| {
          AtNewline(buf, available, stream, i);
          LineThenNewline(buf + available[..i], available[i + 1..] + stream, max);
          if |buf| + i > max {
            return TooLong;
          }
          buf := buf + available[..i];
          available := available[i + 1..];
          answer := Line(Finish(buf));
          buf := [];
          return;
        }
        if |buf| + |available| > max {
          LineTooLong(buf, available, stream, max);
          return TooLong;
        }
        Shift(buf, available, stream);
        buf := buf + available;
        available := [];
      }
    }
  }

  // ------------------------------------------------------------------------------------
  // Whole streams

  /** Everything the calls answer until the end of the stream or a line that is too long. */
  function Reads(bytes: seq<byte>, max: nat): seq<Answer>
    decreases |bytes|
  {
    var answer := NextOf(bytes, max);
    if answer.Line? then [answer] + Reads(AfterNext(bytes, max), max) else [answer]
  }

  lemma Regroup(got: seq<Answer>, answer: Answer, more: seq<Answer>)
    ensures got + ([answer] + more) == (got + [answer]) + more
  {
  }

  /** Any number of calls, each with its own sizes and patience, answer what the split of the
      whole stream says, in order, and nothing else. */
  method Session(reader: LineReader, script: seq<(seq<nat>, nat)>) returns (got: seq<Answer>)
    requires reader.Valid()
    modifies reader
    ensures reader.Valid() && got <= Reads(old(reader.Rest()), reader.max)
    ensures |got| < |Reads(old(reader.Rest()), reader.max)| ==>
            Reads(old(reader.Rest()), reader.max) == got + Reads(reader.Rest(), reader.max)
  {
    got := [];
    ghost var all := Reads(reader.Rest(), reader.max);
    for k := 0 to |script|
      invariant reader.Valid() && all == got + Reads(reader.Rest(), reader.max)
    {
      var answer := reader.NextLine(script[k].0, script[k].1);
      if answer.Eof? || answer.TooLong? {
        got := got + [answer];
        return;
      }
      if answer.Line? {
        Regroup(got, answer, Reads(reader.Rest(), reader.max));
        got := got + [answer];
      }
    }
  }

  // ------------------------------------------------------------------------------------
  // The split

  /** The lines of a stream, the last one with or without its newline. */
  function Split(bytes: seq<byte>): seq<seq<byte>>
    decreases |bytes|
  {
    var i := FirstNewline(bytes);
    if bytes == [] then [] else if i == |bytes| then [bytes] else [bytes[..i]] + Split(bytes[i + 1..])
  }

  /** Messages as the writer frames them: each with a newline after it. */
  function Framed(messages: seq<seq<byte>>): seq<byte> {
    if messages == [] then [] else messages[0] + [NEWLINE] + Framed(messages[1..])
  }

  /** The split leaves no newline in a line. */
  lemma {:induction false} SplitAtEveryNewline(bytes: seq<byte>)
    ensures forall k :: 0 <= k < |Split(bytes)| ==> NEWLINE !in Split(bytes)[k]
    decreases |bytes|
  {
    var i := FirstNewline(bytes);
    if bytes != [] && i < |bytes| {
      SplitAtEveryNewline(bytes[i + 1..]);
    }
  }

  /** With its last newline. */
  function Terminated(bytes: seq<byte>): seq<byte> {
    if bytes == [] || bytes[|bytes| - 1] == NEWLINE then bytes else bytes + [NEWLINE]
  }

  lemma TerminatedCons(line: seq<byte>, rest: seq<byte>)
    ensures Terminated(line + ([NEWLINE] + rest)) == line + ([NEWLINE] + Terminated(rest))
  {
    var bytes := line + ([NEWLINE] + rest);
    if rest != [] {
      assert bytes[|bytes| - 1] == rest[|rest| - 1];
    }
  }

  lemma CutAtNewline(bytes: seq<byte>, i: nat)
    requires i < |bytes| && bytes[i] == NEWLINE
    ensures bytes == bytes[..i] + ([NEWLINE] + bytes[i + 1..])
  {
  }

  /** The split loses nothing but the newlines: framing the lines again gives the stream, with
      its last newline added if it was missing. */
  lemma {:induction false} SplitThenFrame(bytes: seq<byte>)
    ensures Framed(Split(bytes)) == Terminated(bytes)
    decreases |bytes|
  {
    var i := FirstNewline(bytes);
    if bytes != [] && i < |bytes| {
      var line, rest := bytes[..i], bytes[i + 1..];
      SplitThenFrame(rest);
      CutAtNewline(bytes, i);
      calc {
        Framed(Split(bytes));
        Framed([line] + Split(rest));
        { FramedCons(line, Split(rest)); }
        line + ([NEWLINE] + Terminated(rest));
        { TerminatedCons(line, rest); }
        Terminated(line + ([NEWLINE] + rest));
      }
    } else if bytes != [] {
      FramedCons(bytes, []);
      assert [bytes] + [] == [bytes];
    }
  }

  lemma FramedCons(line: seq<byte>, lines: seq<seq<byte>>)
    ensures Framed([line] + lines) == line + ([NEWLINE] + Framed(lines))
  {
    assert ([line] + lines)[1..] == lines;
  }

  /** What the calls answer for these lines: each line finished, up to the first that is too
      long, or up to the end. */
  function Answers(lines: seq<seq<byte>>, max: nat): seq<Answer> {
    if lines == [] then [Eof]
    else if |lines[0]| > max then [TooLong]
    else [Line(Finish(lines[0]))] + Answers(lines[1..], max)
  }

  /** The reader refines the split of the whole stream. */
  lemma {:induction false} ReadsTheSplit(bytes: seq<byte>, max: nat)
    ensures Reads(bytes, max) == Answers(Split(bytes), max)
    decreases |bytes|
  {
    hide FirstNewline, Finish;
    var i := FirstNewline(bytes);
    if bytes != [] && i <= max {
      ReadsTheSplit(AfterNext(bytes, max), max);
      if i == |bytes| {
        LastLineRead(bytes, max);
      } else {
        OneLineRead(bytes, max);
      }
    }
  }

  lemma LastLineRead(bytes: seq<byte>, max: nat)
    requires bytes != [] && FirstNewline(bytes) == |bytes| <= max
    ensures Reads(bytes, max) == Answers(Split(bytes), max)
  {
    hide FirstNewline, Finish;
    assert [bytes][1..] == [];
    assert bytes[..|bytes|] == bytes;
  }

  lemma OneLineRead(bytes: seq<byte>, max: nat)
    requires FirstNewline(bytes) < |bytes| && FirstNewline(bytes) <= max
    requires var rest := bytes[FirstNewline(bytes) + 1..]; Reads(rest, max) == Answers(Split(rest), max)
    ensures Reads(bytes, max) == Answers(Split(bytes), max)
  {
    hide FirstNewline, Finish;
    assert Split(bytes)[1..] == Split(bytes[FirstNewline(bytes) + 1..]);
  }

  // ------------------------------------------------------------------------------------
  // The round trip

  predicate Framable(message: seq<byte>, max: nat) {
    NEWLINE !in message && |message| <= max && (message != [] ==> message[|message| - 1] != RETURN)
  }

  function Received(messages: seq<seq<byte>>): seq<Answer> {
    if messages == [] then [Eof] else [Line(messages[0])] + Received(messages[1..])
  }

  predicate AllFramable(messages: seq<seq<byte>>, max: nat) {
    forall k :: 0 <= k < |messages| ==> Framable(messages[k], max)
  }

  lemma AllFramableCons(first: seq<byte>, rest: seq<seq<byte>>, max: nat)
    ensures AllFramable([first] + rest, max) <==> Framable(first, max) && AllFramable(rest, max)
  {
    var messages := [first] + rest;
    assert messages[0] == first;
    assert forall k :: 0 <= k < |rest| ==> rest[k] == messages[k + 1];
  }

  /** Framed messages are read back as they were written, if and only if none of them has a
      newline, ends in a carriage return, or is over the cap. */
  lemma {:induction false} FramingRoundTrip(messages: seq<seq<byte>>, max: nat)
    ensures Reads(Framed(messages), max) == Received(messages) <==> AllFramable(messages, max)
  {
    if messages != [] {
      var first, rest := messages[0], messages[1..];
      assert messages == [first] + rest;
      AllFramableCons(first, rest, max);
      if Framable(first, max) {
        FramingRoundTrip(rest, max);
        OneMoreFramed(first, rest, max);
      } else {
        FirstSpoils(first, rest, max);
      }
    }
  }

  lemma FirstSpoils(first: seq<byte>, rest: seq<seq<byte>>, max: nat)
    requires !Framable(first, max)
    ensures Reads(Framed([first] + rest), max) != Received([first] + rest)
  {
    FramedCons(first, rest);
    UnframableIsNotRead(first, [NEWLINE] + Framed(rest), max);
    assert Reads(Framed([first] + rest), max)[0] != Received([first] + rest)[0];
  }

  lemma OneMoreFramed(first: seq<byte>, rest: seq<seq<byte>>, max: nat)
    requires Framable(first, max)
    ensures Reads(Framed([first] + rest), max) == Received([first] + rest) <==> Reads(Framed(rest), max) == Received(rest)
  {
    FramedCons(first, rest);
    assert ([first] + rest)[1..] == rest;
    LineThenNewline(first, Framed(rest), max);
    SameTail(Line(first), Reads(Framed(rest), max), Received(rest));
  }

  lemma SameTail(x: Answer, a: seq<Answer>, b: seq<Answer>)
    ensures [x] + a == [x] + b <==> a == b
  {
    assert ([x] + a)[1..] == a && ([x] + b)[1..] == b;
  }

  lemma UnframableIsNotRead(message: seq<byte>, after: seq<byte>, max: nat)
    requires !Framable(message, max) && after != [] && after[0] == NEWLINE
    ensures NextOf(message + after, max) != Line(message)
  {
    var bytes := message + after;
    var i := FirstNewline(bytes);
    if NEWLINE in message {
      var j :| 0 <= j < |message| && message[j] == NEWLINE;
      assert bytes[j] == NEWLINE;
      assert i < |message|;
    } else {
      FirstNewlineIs(bytes, |message|);
      assert bytes[..i] == message;
    }
  }
}
