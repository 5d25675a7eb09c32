/**
  What the chunks of a text promise, for every text and every cap of at least four bytes.
 */
module ChunkerLaws {
  import opened Prelude
  import opened Text
  import opened Chunker

  // ------------------------------------------------------------------------------------
  // The pieces of an over-long line

  predicate AllFit(pieces: seq<string>, max: nat) {
    forall k :: 0 <= k < |pieces| ==> Bytes(pieces[k]) <= max
  }

  predicate NoneEmpty(pieces: seq<string>) {
    forall k :: 0 <= k < |pieces| ==> pieces[k] != []
  }

  /** No two neighbours fit together with anything between them. */
  predicate TooLongTogether(pieces: seq<string>, max: nat) {
    forall k :: 0 <= k < |pieces| - 1 ==> Bytes(pieces[k]) + Bytes(pieces[k + 1]) > max
  }

  lemma {:induction false} ConcatSum(a: seq<string>, b: seq<string>)
    ensures Concat(a + b) == Concat(a) + Concat(b)
    decreases |b|
  {
    if b == [] {
      assert a + b == a;
    } else {
      assert Init(a + b) == a + Init(b);
      ConcatSum(a, Init(b));
      Associate(Concat(a), Concat(Init(b)), Last(b));
    }
  }

  lemma ConcatOne(part: string)
    ensures Concat([part]) == part
  {
    assert Init([part]) == [];
  }

  lemma FirstPiece(line: string, max: nat)
    requires max >= 4 && line != []
    ensures var n := FitLength(line, max); n > 0
  {
  }

  lemma FitSum(a: seq<string>, b: seq<string>, max: nat)
    ensures AllFit(a + b, max) <==> AllFit(a, max) && AllFit(b, max)
    ensures NoneEmpty(a + b) <==> NoneEmpty(a) && NoneEmpty(b)
  {
    hide Bytes;
    assert forall k :: 0 <= k < |a| ==> (a + b)[k] == a[k];
    assert forall k :: 0 <= k < |b| ==> (a + b)[|a| + k] == b[k];
  }

  lemma NothingFits(max: nat)
    ensures AllFit([], max) && NoneEmpty([])
  {
  }

  lemma OneFits(piece: string, max: nat)
    ensures AllFit([piece], max) <==> Bytes(piece) <= max
    ensures NoneEmpty([piece]) <==> piece != []
  {
    assert [piece][0] == piece;
  }

  lemma {:induction false} PiecesOfLongLine(line: string, max: nat)
    requires max >= 4
    ensures AllFit(SplitChars(line, max), max) && NoneEmpty(SplitChars(line, max))
    ensures Concat(SplitChars(line, max)) == line
    decreases |line|
  {
    hide CharBytes, Bytes, FitLength, Concat, AllFit, NoneEmpty;
    if line == [] {
      ConcatOfNothing();
      NothingFits(max);
    } else {
      var n := FitLength(line, max);
      FirstPiece(line, max);
      PiecesOfLongLine(line[n..], max);
      OneFits(line[..n], max);
      FitSum([line[..n]], SplitChars(line[n..], max), max);
      ConcatSum([line[..n]], SplitChars(line[n..], max));
      ConcatOne(line[..n]);
      assert line == line[..n] + line[n..];
    }
  }

  lemma BytesFirst(s: string)
    requires s != []
    ensures Bytes(s) >= CharBytes(s[0])
  {
  }

  lemma {:induction false} PiecesApart(line: string, max: nat)
    requires max >= 4
    ensures TooLongTogether(SplitChars(line, max), max)
    decreases |line|
  {
    hide CharBytes, Bytes;
    if line != [] {
      var n := FitLength(line, max);
      FirstPiece(line, max);
      var rest := line[n..];
      PiecesApart(rest, max);
      if rest != [] {
        FirstPiece(rest, max);
        var m := FitLength(rest, max);
        BytesFirst(rest[..m]);
        assert SplitChars(rest, max)[0] == rest[..m] && rest[..m][0] == line[n];
      }
    }
  }

  lemma LinePieces(line: string, max: nat)
    requires max >= 4
    ensures AllFit(PiecesOfLine(line, max), max) && Concat(PiecesOfLine(line, max)) == line
  {
    hide Bytes, AllFit, Concat, SplitChars;
    PiecesOfLongLine(line, max);
    ConcatOne(line);
    OneFits(line, max);
  }

  lemma NewlineInvisible(a: string, b: string)
    ensures Visible(a + ['\n'] + b) == Visible(a) + Visible(b)
  {
    VisibleSum(a + ['\n'], b);
    VisibleSum(a, ['\n']);
    assert ['\n'][1..] == [] && Visible(['\n']) == [];
    assert Visible(a) + [] == Visible(a);
  }

  /** The pieces of a paragraph fit and show what it shows. */
  lemma {:induction false} ParagraphPieces(paragraph: string, max: nat)
    requires max >= 4
    ensures AllFit(SplitLines(paragraph, max), max)
    ensures Visible(Concat(SplitLines(paragraph, max))) == Visible(paragraph)
    decreases |paragraph|
  {
    hide Bytes, Visible, Concat, AllFit, PiecesOfLine, NewlineAt;
    var i := NewlineAt(paragraph);
    if i == |paragraph| {
      LinePieces(paragraph, max);
    } else {
      var line, rest := paragraph[..i], paragraph[i + 1..];
      LinePieces(line, max);
      ParagraphPieces(rest, max);
      FitSum(PiecesOfLine(line, max), SplitLines(rest, max), max);
      ConcatSum(PiecesOfLine(line, max), SplitLines(rest, max));
      VisibleSum(line, Concat(SplitLines(rest, max)));
      NewlineInvisible(line, rest);
      assert paragraph == line + ['\n'] + rest;
    }
  }

  // ------------------------------------------------------------------------------------
  // Packing

  predicate Packed(p: Pack, max: nat) {
    AllFit(p.chunks, max) && NoneEmpty(p.chunks) && Bytes(p.current) <= max
  }

  function Seen(p: Pack): string {
    Visible(Concat(p.chunks)) + Visible(p.current)
  }

  lemma FlushKeeps(p: Pack, max: nat)
    requires Packed(p, max)
    ensures Packed(Flushed(p), max) && Seen(Flushed(p)) == Seen(p) && Flushed(p).current == []
  {
    hide Visible, Concat;
    if p.current != [] {
      ConcatMore(p.chunks, p.current);
      VisibleSum(Concat(p.chunks), p.current);
      assert Visible([]) == [] by { VisibleOfNothing(); }
      assert Bytes([]) == 0;
      assert Seen(p) + [] == Seen(p);
    }
  }

  lemma VisibleOfNothing()
    ensures Visible([]) == []
  {
  }

  lemma AppendFits(p: Pack, piece: string, sep: string, max: nat)
    requires Packed(p, max) && Bytes(piece) <= max
    ensures Packed(Appended(p, piece, sep, max), max)
  {
    hide Bytes;
    BytesSum(p.current + sep, piece);
    BytesSum(p.current, sep);
  }

  lemma AppendSees(p: Pack, piece: string, sep: string, max: nat)
    requires Visible(sep) == []
    ensures Seen(Appended(p, piece, sep, max)) == Seen(p) + Visible(piece)
  {
    hide Visible, Concat, Bytes;
    VisibleOfNothing();
    var shown := Visible(Concat(p.chunks));
    VisibleSum(p.current + sep, piece);
    VisibleSum(p.current, sep);
    assert Visible(p.current) + [] == Visible(p.current);
    Associate(shown, Visible(p.current), Visible(piece));
    ConcatMore(p.chunks, p.current);
    VisibleSum(Concat(p.chunks), p.current);
    assert shown + [] == shown;
  }

  lemma Separators()
    ensures Visible("\n") == [] && Visible("\n\n") == []
  {
    assert "\n"[1..] == [] && "\n\n"[1..] == "\n";
    assert IsSpace('\n');
  }

  lemma {:induction false} PackPiecesKeeps(p: Pack, pieces: seq<string>, max: nat)
    requires Packed(p, max) && AllFit(pieces, max)
    ensures Packed(PackPieces(p, pieces, max), max)
    ensures Seen(PackPieces(p, pieces, max)) == Seen(p) + Visible(Concat(pieces))
    decreases pieces
  {
    hide Visible, Concat, Bytes, Appended, Seen;
    VisibleOfNothing();
    if pieces == [] {
      assert Concat([]) == [] by { ConcatOfNothing(); }
      assert Seen(p) + [] == Seen(p);
    } else {
      var first, rest := pieces[0], pieces[1..];
      Separators();
      AppendFits(p, first, "\n", max);
      AppendSees(p, first, "\n", max);
      PackPiecesKeeps(Appended(p, first, "\n", max), rest, max);
      assert pieces == [first] + rest;
      ConcatSum([first], rest);
      ConcatOne(first);
      VisibleSum(first, Concat(rest));
      Associate(Seen(p), Visible(first), Visible(Concat(rest)));
    }
  }

  lemma ConcatOfNothing()
    ensures Concat([]) == []
  {
  }

  lemma ParagraphKeeps(p: Pack, paragraph: string, max: nat)
    requires max >= 4 && Packed(p, max)
    ensures Packed(PackParagraph(p, paragraph, max), max)
    ensures Seen(PackParagraph(p, paragraph, max)) == Seen(p) + Visible(paragraph)
  {
    hide Visible, Concat, Bytes, Appended, Seen, Packed, SplitLines, PackPieces, Flushed;
    if Bytes(paragraph) > max {
      FlushKeeps(p, max);
      ParagraphPieces(paragraph, max);
      PackPiecesKeeps(Flushed(p), SplitLines(paragraph, max), max);
    } else {
      Separators();
      AppendFits(p, paragraph, "\n\n", max);
      AppendSees(p, paragraph, "\n\n", max);
    }
  }

  lemma {:induction false} AllKeeps(p: Pack, paragraphs: seq<string>, max: nat)
    requires max >= 4 && Packed(p, max)
    ensures Packed(PackAll(p, paragraphs, max), max)
    ensures Seen(PackAll(p, paragraphs, max)) == Seen(p) + Visible(Concat(paragraphs))
    decreases paragraphs
  {
    hide Visible, Concat, Bytes, Seen, Packed, PackParagraph;
    VisibleOfNothing();
    if paragraphs == [] {
      ConcatOfNothing();
      assert Seen(p) + [] == Seen(p);
    } else {
      var first, rest := paragraphs[0], paragraphs[1..];
      ParagraphKeeps(p, first, max);
      AllKeeps(PackParagraph(p, first, max), rest, max);
      assert paragraphs == [first] + rest;
      ConcatSum([first], rest);
      ConcatOne(first);
      VisibleSum(first, Concat(rest));
      Associate(Seen(p), Visible(first), Visible(Concat(rest)));
    }
  }

  lemma NothingPacked(max: nat)
    ensures Packed(Pack([], []), max) && Seen(Pack([], [])) == []
  {
  }

  /** Every chunk is non-empty and within the cap, and the chunks show what the text shows. */
  lemma ChunksShowTheText(text: string, max: nat)
    requires max >= 4
    ensures var chunks := ChunksOf(text, max);
            AllFit(chunks, max) && NoneEmpty(chunks) && Visible(Concat(chunks)) == Visible(text)
  {
    hide Visible, Concat, Bytes, TrimEnd, ParagraphsOf, PackAll;
    var t := TrimEnd(text);
    TrimEndVisible(text);
    VisibleOfNothing();
    ConcatOfNothing();
    ConcatOne(t);
    if t != [] && Bytes(t) > max {
      var p := PackAll(Pack([], []), ParagraphsOf(t), max);
      NothingPacked(max);
      AllKeeps(Pack([], []), ParagraphsOf(t), max);
      FlushKeeps(p, max);
      ParagraphsShowTheText(t);
      assert [] + Visible(t) == Visible(t);
      assert Visible(Concat(Flushed(p).chunks)) + [] == Visible(Concat(Flushed(p).chunks));
    }
  }

  /** A text that shows something has at least one chunk. */
  lemma SomethingIsSent(text: string, max: nat)
    requires max >= 4
    ensures ChunksOf(text, max) == [] <==> Blank(text)
  {
    hide Visible, Concat, Bytes, TrimEnd, ChunksOf;
    ChunksShowTheText(text, max);
    BlankIsInvisible(text);
    ConcatOfNothing();
    VisibleOfNothing();
    if Blank(text) {
      BlankHasNoChunks(text, max);
    }
  }

  lemma BlankHasNoChunks(text: string, max: nat)
    requires max >= 4 && Blank(text)
    ensures ChunksOf(text, max) == []
  {
    TrimEndVisible(text);
  }

  // ------------------------------------------------------------------------------------
  // Paragraphs lie whole inside a chunk

  ghost predicate HeldIn(part: string, p: Pack) {
    InOneOf(part, p.chunks) || Within(part, p.current)
  }

  lemma OneOfMore(part: string, chunks: seq<string>, chunk: string)
    ensures InOneOf(part, chunks + [chunk]) <==> InOneOf(part, chunks) || Within(part, chunk)
  {
    hide Within;
    assert (chunks + [chunk])[|chunks|] == chunk;
    assert forall k :: 0 <= k < |chunks| ==> (chunks + [chunk])[k] == chunks[k];
  }

  lemma NotInNothing(part: string)
    requires part != []
    ensures !Within(part, [])
  {
  }

  lemma FlushHolds(part: string, p: Pack)
    requires part != [] && HeldIn(part, p)
    ensures InOneOf(part, Flushed(p).chunks)
  {
    hide Within, InOneOf;
    if p.current == [] {
      NotInNothing(part);
    }
    OneOfMore(part, p.chunks, p.current);
  }

  lemma AppendHolds(part: string, p: Pack, piece: string, sep: string, max: nat)
    requires part != [] && HeldIn(part, p)
    ensures HeldIn(part, Appended(p, piece, sep, max))
  {
    hide Within, InOneOf, Bytes;
    if p.current == [] {
      NotInNothing(part);
    } else {
      OneOfMore(part, p.chunks, p.current);
      if Within(part, p.current) {
        WithinMore(part, p.current, [], sep + piece);
        assert [] + p.current + (sep + piece) == p.current + sep + piece;
      }
    }
  }

  lemma AppendedIsHeld(p: Pack, piece: string, sep: string, max: nat)
    ensures HeldIn(piece, Appended(p, piece, sep, max))
  {
    hide Bytes;
    assert piece == [] + piece + [];
    assert p.current + sep + piece == (p.current + sep) + piece + [];
  }

  lemma {:induction false} PiecesHold(part: string, p: Pack, pieces: seq<string>, max: nat)
    requires part != [] && HeldIn(part, p)
    ensures HeldIn(part, PackPieces(p, pieces, max))
    decreases pieces
  {
    hide HeldIn, Appended;
    if pieces != [] {
      AppendHolds(part, p, pieces[0], "\n", max);
      PiecesHold(part, Appended(p, pieces[0], "\n", max), pieces[1..], max);
    }
  }

  lemma ParagraphHolds(part: string, p: Pack, paragraph: string, max: nat)
    requires max >= 4 && part != [] && HeldIn(part, p)
    ensures HeldIn(part, PackParagraph(p, paragraph, max))
  {
    hide Within, InOneOf, Bytes, SplitLines, PackPieces, Appended;
    FlushHolds(part, p);
    PiecesHold(part, Flushed(p), SplitLines(paragraph, max), max);
    AppendHolds(part, p, paragraph, "\n\n", max);
  }

  lemma {:induction false} AllHold(part: string, p: Pack, paragraphs: seq<string>, max: nat)
    requires max >= 4 && part != [] && HeldIn(part, p)
    ensures HeldIn(part, PackAll(p, paragraphs, max))
    decreases paragraphs
  {
    hide HeldIn, PackParagraph;
    if paragraphs != [] {
      ParagraphHolds(part, p, paragraphs[0], max);
      AllHold(part, PackParagraph(p, paragraphs[0], max), paragraphs[1..], max);
    }
  }

  lemma {:induction false} FittingIsHeld(p: Pack, paragraphs: seq<string>, k: nat, max: nat)
    requires max >= 4 && k < |paragraphs| && paragraphs[k] != [] && Bytes(paragraphs[k]) <= max
    ensures HeldIn(paragraphs[k], PackAll(p, paragraphs, max))
    decreases k
  {
    hide HeldIn, Bytes, Appended, SplitLines, PackPieces;
    var next := PackParagraph(p, paragraphs[0], max);
    if k == 0 {
      AppendedIsHeld(p, paragraphs[0], "\n\n", max);
      AllHold(paragraphs[0], next, paragraphs[1..], max);
    } else {
      assert paragraphs[k] == paragraphs[1..][k - 1];
      FittingIsHeld(next, paragraphs[1..], k - 1, max);
    }
  }

  lemma WithinBytes(part: string, whole: string)
    requires Within(part, whole)
    ensures Bytes(part) <= Bytes(whole)
  {
    hide Bytes;
    var before, after :| whole == before + part + after;
    BytesSum(before + part, after);
    BytesSum(before, part);
  }

  /** A paragraph lies whole inside one chunk exactly when it fits the cap. */
  lemma ParagraphWholeIfItFits(text: string, max: nat, k: nat)
    requires max >= 4 && k < |ParagraphsOf(TrimEnd(text))|
    ensures var paragraph := ParagraphsOf(TrimEnd(text))[k];
            InOneOf(paragraph, ChunksOf(text, max)) <==> Bytes(paragraph) <= max
  {
    hide Bytes, TrimEnd, ParagraphsOf, PackAll, Within, Concat, Visible;
    var t := TrimEnd(text);
    var paragraph := ParagraphsOf(t)[k];
    ParagraphsShowTheText(t);
    if Bytes(paragraph) <= max {
      FittingIsWhole(t, max, k);
      assert Bytes(t) <= max ==> ChunksOf(text, max)[0] == t;
    } else if InOneOf(paragraph, ChunksOf(text, max)) {
      var j :| 0 <= j < |ChunksOf(text, max)| && Within(paragraph, ChunksOf(text, max)[j]);
      ChunksShowTheText(text, max);
      WithinBytes(paragraph, ChunksOf(text, max)[j]);
    }
  }

  lemma FittingIsWhole(t: string, max: nat, k: nat)
    requires max >= 4 && k < |ParagraphsOf(t)| && Bytes(ParagraphsOf(t)[k]) <= max
    ensures t != [] && Within(ParagraphsOf(t)[k], t)
    ensures InOneOf(ParagraphsOf(t)[k], Flushed(PackAll(Pack([], []), ParagraphsOf(t), max)).chunks)
  {
    hide Bytes, TrimEnd, ParagraphsOf, PackAll, Concat, Visible, InOneOf;
    var paragraph := ParagraphsOf(t)[k];
    ParagraphsShowTheText(t);
    PartNotEmpty(paragraph, t);
    FittingIsHeld(Pack([], []), ParagraphsOf(t), k, max);
    FlushHolds(paragraph, PackAll(Pack([], []), ParagraphsOf(t), max));
  }

  // ------------------------------------------------------------------------------------
  // The pieces of an over-long line

  /** The last piece put in is at the end of the chunk being filled. */
  ghost predicate EndsWith(s: string, end: string) {
    exists before :: s == before + end
  }

  lemma NextPieceAlone(p: Pack, last: string, piece: string, max: nat)
    requires EndsWith(p.current, last) && last != [] && Bytes(last) + Bytes(piece) > max
    ensures Appended(p, piece, "\n", max) == Pack(p.chunks + [p.current], piece)
  {
    hide Bytes;
    var before :| p.current == before + last;
    BytesSum(before, last);
  }

  /** Once the first piece of an over-long line is in, the others are put in without anything
      between them: each starts a chunk, and all but the last are chunks of their own. */
  lemma {:induction false} LongLineUnbroken(p: Pack, last: string, pieces: seq<string>, max: nat)
    requires EndsWith(p.current, last) && pieces != [] && NoneEmpty([last] + pieces)
    requires TooLongTogether([last] + pieces, max)
    ensures PackPieces(p, pieces, max) == Pack(p.chunks + [p.current] + Init(pieces), Last(pieces))
    decreases pieces
  {
    hide Bytes, Appended;
    var all, first, rest := [last] + pieces, pieces[0], pieces[1..];
    assert all[0] == last && all[1] == first;
    NextPieceAlone(p, last, first, max);
    var next := Pack(p.chunks + [p.current], first);
    if rest == [] {
      assert Init(pieces) == [] && p.chunks + [p.current] + [] == p.chunks + [p.current];
      assert PackPieces(next, rest, max) == next;
    } else {
      assert first == [] + first;
      assert forall k :: 0 <= k < |pieces| ==> ([first] + rest)[k] == all[k + 1];
      LongLineUnbroken(next, first, rest, max);
      assert Init(pieces) == [first] + Init(rest);
      Associate(p.chunks + [p.current], [first], Init(rest));
    }
  }

  /** An over-long line, wherever it starts: its first piece is put in like any line, and no
      newline is put between its pieces. */
  lemma LongLinePacked(p: Pack, line: string, max: nat)
    requires max >= 4 && Bytes(line) > max
    ensures var pieces := SplitChars(line, max);
            && |pieces| >= 2 && Concat(pieces) == line
            && var q := Appended(p, pieces[0], "\n", max);
               PackPieces(p, pieces, max) == Pack(q.chunks + [q.current] + pieces[1..|pieces| - 1], Last(pieces))
  {
    hide Bytes, CharBytes, FitLength, Appended, Concat, SplitChars;
    var pieces := SplitChars(line, max);
    PiecesOfLongLine(line, max);
    PiecesApart(line, max);
    TwoPieces(line, max);
    var q := Appended(p, pieces[0], "\n", max);
    AppendedEnds(p, pieces[0], "\n", max);
    assert [pieces[0]] + pieces[1..] == pieces;
    LongLineUnbroken(q, pieces[0], pieces[1..], max);
    assert Init(pieces[1..]) == pieces[1..|pieces| - 1];
  }

  lemma TwoPieces(line: string, max: nat)
    requires max >= 4 && Bytes(line) > max
    ensures |SplitChars(line, max)| >= 2
  {
    hide CharBytes;
    var n := FitLength(line, max);
    assert line[..|line|] == line;
    FirstPiece(line, max);
    assert line[n..] != [] && SplitChars(line[n..], max) != [];
  }

  lemma AppendedEnds(p: Pack, piece: string, sep: string, max: nat)
    ensures EndsWith(Appended(p, piece, sep, max).current, piece)
  {
    hide Bytes;
    assert piece == [] + piece;
    assert p.current + sep + piece == (p.current + sep) + piece;
  }

  // ------------------------------------------------------------------------------------
  // A block inside a paragraph that is over the cap

  /** The lines of a block as the text has them. */
  function JoinLines(lines: seq<string>): string
    requires lines != []
  {
    if |lines| == 1 then lines[0] else lines[0] + "\n" + JoinLines(lines[1..])
  }

  lemma JoinedBytes(lines: seq<string>)
    requires |lines| > 1
    ensures Bytes(JoinLines(lines)) == Bytes(lines[0]) + 1 + Bytes(JoinLines(lines[1..]))
  {
    hide Bytes;
    BytesSum(lines[0] + "\n", JoinLines(lines[1..]));
    BytesSum(lines[0], "\n");
    BytesOne('\n');
  }

  lemma AppendedBytes(a: string, b: string)
    ensures Bytes(a + "\n" + b) == Bytes(a) + 1 + Bytes(b) && Bytes("\n") == 1
  {
    hide Bytes;
    BytesSum(a + "\n", b);
    BytesSum(a, "\n");
    BytesOne('\n');
  }

  /** Lines that fit together with the chunk being filled all go into it. */
  lemma {:induction false} RestGoesOn(p: Pack, lines: seq<string>, max: nat)
    requires p.current != [] && lines != [] && Bytes(p.current) + 1 + Bytes(JoinLines(lines)) <= max
    ensures PackPieces(p, lines, max) == p.(current := p.current + "\n" + JoinLines(lines))
    decreases lines
  {
    hide Bytes, JoinLines;
    JoinedOne(lines);
    AppendedBytes(p.current, lines[0]);
    if |lines| > 1 {
      JoinedBytes(lines);
      var q := Appended(p, lines[0], "\n", max);
      assert q == p.(current := p.current + "\n" + lines[0]);
      RestGoesOn(q, lines[1..], max);
      assert q.current + "\n" + JoinLines(lines[1..]) == p.current + "\n" + JoinLines(lines);
    } else {
      assert lines[1..] == [];
    }
  }

  lemma JoinedOne(lines: seq<string>)
    requires lines != []
    ensures |lines| == 1 ==> JoinLines(lines) == lines[0]
    ensures |lines| > 1 ==> JoinLines(lines) == lines[0] + "\n" + JoinLines(lines[1..])
  {
  }

  /** What is packed after a chunk was begun: it is among the chunks, or still being filled, with
      all it had at its front. */
  lemma {:induction false} BegunGoesOn(p: Pack, pieces: seq<string>, max: nat)
    requires p.current != []
    ensures var q := PackPieces(p, pieces, max);
            if q.chunks == p.chunks then p.current <= q.current
            else |q.chunks| > |p.chunks| && q.chunks[..|p.chunks|] == p.chunks && p.current <= q.chunks[|p.chunks|]
    decreases pieces
  {
    hide Bytes;
    if pieces != [] {
      var next := Appended(p, pieces[0], "\n", max);
      if next.current == [] {
        EmptyGoesOn(next, pieces[1..], max);
      } else {
        BegunGoesOn(next, pieces[1..], max);
      }
    }
  }

  lemma {:induction false} EmptyGoesOn(p: Pack, pieces: seq<string>, max: nat)
    ensures var q := PackPieces(p, pieces, max); |q.chunks| >= |p.chunks| && q.chunks[..|p.chunks|] == p.chunks
    decreases pieces
  {
    hide Bytes;
    if pieces != [] {
      EmptyGoesOn(Appended(p, pieces[0], "\n", max), pieces[1..], max);
    }
  }

  /** A block is put in whole as long as it is begun in a new chunk or fits the one being filled. */
  predicate RoomForBlock(p: Pack, lines: seq<string>, max: nat)
    requires lines != []
  {
    || p.current == []
    || Bytes(p.current) + 1 + Bytes(lines[0]) > max
    || Bytes(p.current) + 1 + Bytes(JoinLines(lines)) <= max
  }

  /**
    The lines of a block that fits the cap are packed as if the block were one piece, exactly if
    the chunk being filled has room for all of it or for none of it.
   */
  lemma BlockWholeExactly(p: Pack, lines: seq<string>, max: nat)
    requires lines != [] && lines[0] != [] && Bytes(JoinLines(lines)) <= max
    ensures PackPieces(p, lines, max) == Appended(p, JoinLines(lines), "\n", max) <==> RoomForBlock(p, lines, max)
  {
    hide Bytes, JoinLines;
    JoinedOne(lines);
    AppendedBytes(p.current, lines[0]);
    var q := Appended(p, lines[0], "\n", max);
    if |lines| == 1 {
      assert lines[1..] == [];
    } else {
      JoinedBytes(lines);
      if RoomForBlock(p, lines, max) {
        if p.current != [] && Bytes(p.current) + 1 + Bytes(JoinLines(lines)) <= max {
          RestGoesOn(p, lines, max);
        } else {
          RestGoesOn(q, lines[1..], max);
        }
      } else {
        BegunGoesOn(q, lines[1..], max);
        assert |q.current| > |p.current|;
      }
    }
  }

  // ------------------------------------------------------------------------------------
  // A fenced block that fits can still be split

  const SPLIT_FENCE := "a\n```\n```"

  lemma SplitFenceFirst()
    ensures ScanLine(SPLIT_FENCE, Scan([], 0, 0, false)) == Scan([], 0, 2, false)
  {
    hide NewlineAt;
    var t := SPLIT_FENCE;
    NewlineAtIs(t, 1);
    assert t[0..] == t;
    var line := FirstLine(t);
    assert line == "a\n" && Init(line) == "a";
    assert TrimNewlines(line) == "a";
    assert !IsSpace("a"[0]) && !Separates(line, false);
  }

  lemma SplitFenceSecond()
    ensures ScanLine(SPLIT_FENCE, Scan([], 0, 2, false)) == Scan([], 0, 6, true)
  {
    hide NewlineAt;
    var rest := SPLIT_FENCE[2..];
    assert rest == "```\n```";
    NewlineAtIs(rest, 3);
    var line := FirstLine(rest);
    assert line == "```\n" && Init(line) == "```";
    assert TrimNewlines(line) == "```";
  }

  lemma SplitFenceThird()
    ensures ScanLine(SPLIT_FENCE, Scan([], 0, 6, true)) == Scan([], 0, 9, false)
  {
    hide NewlineAt;
    var rest := SPLIT_FENCE[6..];
    assert rest == "```";
    NewlineAtIs(rest, 3);
    var line := FirstLine(rest);
    assert line == "```" && TrimNewlines(line) == "```" && line[0] == '`' && !IsSpace(line[0]);
  }

  lemma SplitFenceParagraph()
    ensures TrimEnd(SPLIT_FENCE) == SPLIT_FENCE && ParagraphsOf(SPLIT_FENCE) == [SPLIT_FENCE]
  {
    hide ScanLine;
    var t := SPLIT_FENCE;
    assert Last(t) == '`' && !IsSpace(Last(t));
    SplitFenceFirst();
    SplitFenceSecond();
    SplitFenceThird();
    assert ScanAll(t, Scan([], 0, 6, true)) == ScanAll(t, Scan([], 0, 9, false));
    assert ScanAll(t, Scan([], 0, 2, false)) == ScanAll(t, Scan([], 0, 6, true));
    assert t[0..9] == t && TrimEnd(t[0..9]) == t;
  }

  lemma SplitFenceBytes()
    ensures Bytes("a") == 1 && Bytes("\n") == 1 && Bytes("```") == 3 && Bytes("a\n```") == 5
    ensures Bytes("```\n```") == 7 && Bytes(SPLIT_FENCE) == 9
  {
    BytesOne('a');
    BytesOne('\n');
    BytesOne('`');
    assert "```" == ['`'] + (['`'] + ['`']);
    BytesSum(['`'], ['`']);
    BytesSum(['`'], ['`'] + ['`']);
    assert "a\n```" == "a" + ("\n" + "```");
    BytesSum("\n", "```");
    BytesSum("a", "\n" + "```");
    assert "```\n```" == "```" + ("\n" + "```");
    BytesSum("```", "\n" + "```");
    assert SPLIT_FENCE == "a\n```" + ("\n" + "```");
    BytesSum("a\n```", "\n" + "```");
  }

  lemma SplitFenceLines()
    ensures SplitLines(SPLIT_FENCE, 8) == ["a", "```", "```"]
  {
    hide Bytes, NewlineAt;
    SplitFenceBytes();
    var t, u := SPLIT_FENCE, "```\n```";
    NewlineAtIs(t, 1);
    NewlineAtIs(u, 3);
    NewlineAtIs("```", 3);
    assert t[..1] == "a" && t[2..] == u && u[..3] == "```" && u[4..] == "```";
    assert SplitLines("```", 8) == ["```"];
    assert SplitLines(u, 8) == ["```"] + ["```"];
    assert SplitLines(t, 8) == ["a"] + (["```"] + ["```"]);
  }

  /** A fenced block of seven bytes right after a line of text is split by a cap of eight: the
      paragraph they make together is too long and goes by lines. */
  lemma FenceCanBeSplit()
    ensures FencedBlock(["```\n", "```"]) && Bytes("```\n```") <= 8
    ensures ChunksOf(SPLIT_FENCE, 8) == ["a\n```", "```"]
    ensures !InOneOf("```\n```", ChunksOf(SPLIT_FENCE, 8))
  {
    hide Bytes, ChunksOf, Within;
    SplitFenceBytes();
    SplitFencePacked();
    assert Init("```\n") == "```" && TrimNewlines("```\n") == "```" && TrimNewlines("```") == "```";
    LongerNotWithin("```\n```", "a\n```");
    LongerNotWithin("```\n```", "```");
  }

  lemma LongerNotWithin(part: string, whole: string)
    requires Bytes(part) > Bytes(whole)
    ensures !Within(part, whole)
  {
    if Within(part, whole) {
      WithinBytes(part, whole);
    }
  }

  lemma SplitFencePacked()
    ensures ChunksOf(SPLIT_FENCE, 8) == ["a\n```", "```"]
  {
    hide Bytes, TrimEnd, ParagraphsOf, SplitLines;
    SplitFenceParagraph();
    SplitFenceBytes();
    SplitFenceLines();
    var p0, pieces := Pack([], []), ["a", "```", "```"];
    var p1 := Appended(p0, "a", "\n", 8);
    assert p1 == Pack([], "a");
    var p2 := Appended(p1, "```", "\n", 8);
    assert p2 == Pack([], "a\n```");
    var p3 := Appended(p2, "```", "\n", 8);
    assert p3 == Pack(["a\n```"], "```");
    assert pieces[1..] == ["```", "```"] && pieces[1..][1..] == ["```"] && pieces[1..][1..][1..] == [];
    assert PackPieces(p2, ["```"], 8) == p3;
    assert PackPieces(p1, ["```", "```"], 8) == p3;
    assert PackPieces(p0, pieces, 8) == p3;
    assert [SPLIT_FENCE][1..] == [];
    assert PackAll(p0, [SPLIT_FENCE], 8) == p3;
  }
}
