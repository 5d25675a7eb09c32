/**
  Where in the chunks of a text a line or a block of lines ends up (crates/silta/src/text.rs):
  the packing is followed through the paragraphs before it, the lines before it in its own
  paragraph, and everything packed after it.
 */
module ChunkPlaces {
  import opened Prelude
  import opened Text
  import opened Chunker
  import opened ChunkerLaws

  // ------------------------------------------------------------------------------------
  // Splitting and packing in parts

  lemma NewlineLater(x: string, y: string)
    ensures NewlineAt(x + ("\n" + y)) == NewlineAt(x)
  {
    hide NewlineAt;
    var whole := x + ("\n" + y);
    assert forall j :: 0 <= j < |x| ==> whole[j] == x[j];
    assert whole[|x|] == '\n';
    NewlineAtIs(whole, NewlineAt(x));
  }

  lemma {:induction false} SplitInTwo(x: string, y: string, max: nat)
    requires max >= 4
    ensures SplitLines(x + ("\n" + y), max) == SplitLines(x, max) + SplitLines(y, max)
    decreases |x|
  {
    hide PiecesOfLine, NewlineAt;
    var whole, i := x + ("\n" + y), NewlineAt(x);
    NewlineLater(x, y);
    if i == |x| {
      assert whole[..i] == x && whole[i + 1..] == y;
    } else {
      SplitInTwo(x[i + 1..], y, max);
      assert whole[..i] == x[..i] && whole[i + 1..] == x[i + 1..] + ("\n" + y);
      Associate(PiecesOfLine(x[..i], max), SplitLines(x[i + 1..], max), SplitLines(y, max));
    }
  }

  lemma {:induction false} PackInTwo(p: Pack, a: seq<string>, b: seq<string>, max: nat)
    ensures PackPieces(p, a + b, max) == PackPieces(PackPieces(p, a, max), b, max)
    decreases a
  {
    hide Appended;
    if a == [] {
      assert a + b == b;
    } else {
      assert (a + b)[0] == a[0] && (a + b)[1..] == a[1..] + b;
      PackInTwo(Appended(p, a[0], "\n", max), a[1..], b, max);
    }
  }

  lemma {:induction false} AllInTwo(p: Pack, a: seq<string>, b: seq<string>, max: nat)
    requires max >= 4
    ensures PackAll(p, a + b, max) == PackAll(PackAll(p, a, max), b, max)
    decreases a
  {
    hide PackParagraph;
    if a == [] {
      assert a + b == b;
    } else {
      assert (a + b)[0] == a[0] && (a + b)[1..] == a[1..] + b;
      AllInTwo(PackParagraph(p, a[0], max), a[1..], b, max);
    }
  }

  predicate NoNewline(line: string) {
    forall i :: 0 <= i < |line| ==> line[i] != '\n'
  }

  lemma OneLine(line: string, max: nat)
    requires max >= 4 && NoNewline(line)
    ensures SplitLines(line, max) == PiecesOfLine(line, max)
  {
    hide NewlineAt;
    NewlineAtIs(line, |line|);
  }

  /** Lines that fit are their own pieces. */
  lemma {:induction false} LinesAreTheirPieces(lines: seq<string>, max: nat)
    requires max >= 4 && lines != [] && Bytes(JoinLines(lines)) <= max
    requires forall i :: 0 <= i < |lines| ==> NoNewline(lines[i])
    ensures SplitLines(JoinLines(lines), max) == lines
    decreases lines
  {
    hide Bytes, JoinLines, SplitLines;
    JoinedOne(lines);
    OneLine(lines[0], max);
    if |lines| > 1 {
      JoinedBytes(lines);
      LinesAreTheirPieces(lines[1..], max);
      SplitInTwo(lines[0], JoinLines(lines[1..]), max);
      assert lines[0] + "\n" + JoinLines(lines[1..]) == lines[0] + ("\n" + JoinLines(lines[1..]));
      assert [lines[0]] + lines[1..] == lines;
    } else {
      assert lines == [lines[0]];
    }
  }

  // ------------------------------------------------------------------------------------
  // What is packed stays where it is

  /** The chunks go on from a pack: its chunks come first, and the one begun is the front of the next. */
  predicate GoOn(p: Pack, chunks: seq<string>) {
    p.chunks <= chunks && (p.current != [] ==> |p.chunks| < |chunks| && p.current <= chunks[|p.chunks|])
  }

  lemma FlushGoesOn(p: Pack, chunks: seq<string>)
    requires GoOn(Flushed(p), chunks)
    ensures GoOn(p, chunks)
  {
    if p.current != [] {
      assert chunks[|p.chunks|] == (p.chunks + [p.current])[|p.chunks|];
    }
  }

  lemma AppendGoesOn(p: Pack, piece: string, sep: string, max: nat, chunks: seq<string>)
    requires GoOn(Appended(p, piece, sep, max), chunks)
    ensures GoOn(p, chunks)
  {
    hide Bytes;
    if p.current != [] && |Appended(p, piece, sep, max).chunks| > |p.chunks| {
      assert chunks[|p.chunks|] == (p.chunks + [p.current])[|p.chunks|];
    }
  }

  lemma {:induction false} PiecesGoOn(p: Pack, pieces: seq<string>, max: nat, chunks: seq<string>)
    requires GoOn(PackPieces(p, pieces, max), chunks)
    ensures GoOn(p, chunks)
    decreases pieces
  {
    hide Appended, GoOn;
    if pieces != [] {
      PiecesGoOn(Appended(p, pieces[0], "\n", max), pieces[1..], max, chunks);
      AppendGoesOn(p, pieces[0], "\n", max, chunks);
    }
  }

  lemma {:induction false} AllGoOn(p: Pack, paragraphs: seq<string>, max: nat, chunks: seq<string>)
    requires max >= 4 && GoOn(PackAll(p, paragraphs, max), chunks)
    ensures GoOn(p, chunks)
    decreases paragraphs
  {
    hide Appended, GoOn, SplitLines, PackPieces, Bytes, Flushed;
    if paragraphs != [] {
      var first := paragraphs[0];
      AllGoOn(PackParagraph(p, first, max), paragraphs[1..], max, chunks);
      if Bytes(first) > max {
        PiecesGoOn(Flushed(p), SplitLines(first, max), max, chunks);
        FlushGoesOn(p, chunks);
      } else {
        AppendGoesOn(p, first, "\n\n", max, chunks);
      }
    }
  }

  // ------------------------------------------------------------------------------------
  // A stretch of whole lines of a paragraph

  /** `body` is whole lines between `before` and `after`. */
  predicate AtLines(before: string, after: string) {
    (before == [] || Last(before) == '\n') && (after == [] || after[0] == '\n')
  }

  function PiecesBefore(before: string, max: nat): seq<string>
    requires max >= 4
  {
    if before == [] then [] else SplitLines(Init(before), max)
  }

  function PiecesAfter(after: string, max: nat): seq<string>
    requires max >= 4
  {
    if after == [] then [] else SplitLines(after[1..], max)
  }

  lemma SplitInThree(before: string, body: string, after: string, max: nat)
    requires max >= 4 && AtLines(before, after)
    ensures SplitLines(before + body + after, max)
            == PiecesBefore(before, max) + (SplitLines(body, max) + PiecesAfter(after, max))
  {
    hide SplitLines;
    assert SplitLines(body + after, max) == SplitLines(body, max) + PiecesAfter(after, max) by {
      if after == [] {
        assert body + after == body;
      } else {
        assert body + after == body + ("\n" + after[1..]);
        SplitInTwo(body, after[1..], max);
      }
    }
    if before == [] {
      assert before + body + after == body + after;
    } else {
      assert before + body + after == Init(before) + ("\n" + (body + after));
      SplitInTwo(Init(before), body + after, max);
    }
  }

  /** The pack when such a stretch is reached, from the paragraphs and the lines before it. */
  function PackBefore(earlier: seq<string>, before: string, max: nat): Pack
    requires max >= 4
  {
    PackPieces(Flushed(PackAll(Pack([], []), earlier, max)), PiecesBefore(before, max), max)
  }

  lemma LongParagraphInText(t: string, max: nat, k: nat)
    requires k < |ParagraphsOf(t)| && Bytes(ParagraphsOf(t)[k]) > max
    ensures Bytes(t) > max && t != []
  {
    hide Bytes, ParagraphsOf, Concat, Visible;
    ParagraphsShowTheText(t);
    PartNotEmpty(ParagraphsOf(t)[k], t);
    WithinBytes(ParagraphsOf(t)[k], t);
  }

  /** The chunks of a text go on from the pack that a stretch of an over-long paragraph leaves. */
  lemma ChunksGoOn(text: string, max: nat, k: nat, before: string, body: string, after: string)
    requires max >= 4 && AtLines(before, after) && k < |ParagraphsOf(TrimEnd(text))|
    requires ParagraphsOf(TrimEnd(text))[k] == before + body + after && Bytes(before + body + after) > max
    ensures GoOn(PackPieces(PackBefore(ParagraphsOf(TrimEnd(text))[..k], before, max), SplitLines(body, max), max),
                 ChunksOf(text, max))
  {
    hide Bytes, ParagraphsOf, SplitLines, PackPieces, PackAll, TrimEnd, AtLines, GoOn;
    var t := TrimEnd(text);
    var ps := ParagraphsOf(t);
    LongParagraphInText(t, max, k);
    var early := PackAll(Pack([], []), ps[..k], max);
    AllThrough(ps, k, max);
    var done := PackParagraph(early, ps[k], max);
    var all := PackAll(done, ps[k + 1..], max);
    assert GoOn(Flushed(all), Flushed(all).chunks) by {
      NothingBegun(all);
    }
    FlushGoesOn(all, ChunksOf(text, max));
    AllGoOn(done, ps[k + 1..], max, ChunksOf(text, max));
    SplitInThree(before, body, after, max);
    var first, rest := PiecesBefore(before, max), SplitLines(body, max) + PiecesAfter(after, max);
    PackInTwo(Flushed(early), first, rest, max);
    var p := PackBefore(ps[..k], before, max);
    PackInTwo(p, SplitLines(body, max), PiecesAfter(after, max), max);
    PiecesGoOn(PackPieces(p, SplitLines(body, max), max), PiecesAfter(after, max), max, ChunksOf(text, max));
  }

  lemma NothingBegun(p: Pack)
    ensures GoOn(Flushed(p), Flushed(p).chunks)
  {
  }

  lemma AllThrough(ps: seq<string>, k: nat, max: nat)
    requires max >= 4 && k < |ps|
    ensures PackAll(Pack([], []), ps, max)
            == PackAll(PackParagraph(PackAll(Pack([], []), ps[..k], max), ps[k], max), ps[k + 1..], max)
  {
    hide PackParagraph;
    assert ps == ps[..k] + ps[k..];
    AllInTwo(Pack([], []), ps[..k], ps[k..], max);
    assert ps[k..][0] == ps[k] && ps[k..][1..] == ps[k + 1..];
  }

  // ------------------------------------------------------------------------------------
  // Lines that fit together

  /** `part` stands in the chunk at index `n`, at this offset. */
  predicate StandsAt(chunks: seq<string>, n: nat, offset: nat, part: string) {
    n < |chunks| && offset <= |chunks[n]| && part <= chunks[n][offset..]
  }

  /** Where the next piece goes: into which chunk, and after how many characters of it. */
  datatype Place = Place(chunk: nat, offset: nat)

  function NextPlace(p: Pack, piece: string, sep: string, max: nat): (place: Place)
    ensures var q := Appended(p, piece, sep, max);
            place.chunk == |q.chunks| && place.offset + |piece| == |q.current| && q.current[place.offset..] == piece
  {
    if p.current == [] || Bytes(p.current) + Bytes(sep) + Bytes(piece) > max then Place(|Appended(p, piece, sep, max).chunks|, 0)
    else Place(|p.chunks|, |p.current + sep|)
  }

  lemma PrefixStands(chunks: seq<string>, n: nat, current: string, offset: nat)
    requires n < |chunks| && current <= chunks[n] && offset <= |current|
    ensures StandsAt(chunks, n, offset, current[offset..])
  {
  }

  lemma Stands(p: Pack, chunks: seq<string>, offset: nat)
    requires GoOn(p, chunks) && p.current != [] && offset <= |p.current|
    ensures StandsAt(chunks, |p.chunks|, offset, p.current[offset..])
  {
    PrefixStands(chunks, |p.chunks|, p.current, offset);
  }

  /**
    In a text, lines of an over-long paragraph that fit the cap together stand whole in the chunk
    where they begin, exactly if the chunk being filled when they are reached has room for all of
    them or not even for the first.
   */
  lemma LinesWholeExactly(text: string, max: nat, k: nat, before: string, lines: seq<string>, after: string)
    requires max >= 4 && AtLines(before, after) && k < |ParagraphsOf(TrimEnd(text))|
    requires lines != [] && lines[0] != [] && forall i :: 0 <= i < |lines| ==> NoNewline(lines[i])
    requires ParagraphsOf(TrimEnd(text))[k] == before + JoinLines(lines) + after
    requires Bytes(ParagraphsOf(TrimEnd(text))[k]) > max >= Bytes(JoinLines(lines))
    ensures var p := PackBefore(ParagraphsOf(TrimEnd(text))[..k], before, max);
            var place := NextPlace(p, lines[0], "\n", max);
            && StandsAt(ChunksOf(text, max), place.chunk, place.offset, lines[0])
            && (StandsAt(ChunksOf(text, max), place.chunk, place.offset, JoinLines(lines)) <==> RoomForBlock(p, lines, max))
  {
    hide Bytes, ParagraphsOf, SplitLines, PackPieces, PackBefore, TrimEnd, ChunksOf, JoinLines, NoNewline, RoomForBlock, GoOn, Appended, StandsAt;
    var ps := ParagraphsOf(TrimEnd(text));
    var p := PackBefore(ps[..k], before, max);
    ChunksGoOn(text, max, k, before, JoinLines(lines), after);
    LinesAreTheirPieces(lines, max);
    FirstLineStands(p, lines, max, ChunksOf(text, max));
    ChunksShowTheText(text, max);
    BlockStands(p, lines, max, ChunksOf(text, max));
  }

  lemma FirstLineStands(p: Pack, lines: seq<string>, max: nat, chunks: seq<string>)
    requires lines != [] && lines[0] != [] && GoOn(PackPieces(p, lines, max), chunks)
    ensures var place := NextPlace(p, lines[0], "\n", max); StandsAt(chunks, place.chunk, place.offset, lines[0])
  {
    hide Appended, GoOn, StandsAt;
    var q := Appended(p, lines[0], "\n", max);
    PiecesGoOn(q, lines[1..], max, chunks);
    Stands(q, chunks, NextPlace(p, lines[0], "\n", max).offset);
  }

  lemma BlockStands(p: Pack, lines: seq<string>, max: nat, chunks: seq<string>)
    requires lines != [] && lines[0] != [] && Bytes(JoinLines(lines)) <= max
    requires GoOn(PackPieces(p, lines, max), chunks) && AllFit(chunks, max)
    ensures var place := NextPlace(p, lines[0], "\n", max);
            StandsAt(chunks, place.chunk, place.offset, JoinLines(lines)) <==> RoomForBlock(p, lines, max)
  {
    hide Bytes, JoinLines, GoOn, PackPieces;
    var place, body := NextPlace(p, lines[0], "\n", max), JoinLines(lines);
    BlockWholeExactly(p, lines, max);
    JoinedStarts(lines);
    AppendedBytes([], []);
    if RoomForBlock(p, lines, max) {
      SamePlace(p, lines, max);
      var whole := Appended(p, body, "\n", max);
      Stands(whole, chunks, place.offset);
    } else if StandsAt(chunks, place.chunk, place.offset, body) {
      FirstLineStands(p, lines, max, chunks);
      NoRoom(p, lines, max, chunks);
    }
  }

  lemma JoinedStarts(lines: seq<string>)
    requires lines != []
    ensures lines[0] <= JoinLines(lines) && Bytes(lines[0]) <= Bytes(JoinLines(lines))
  {
    hide Bytes;
    if |lines| > 1 {
      JoinedBytes(lines);
    }
  }

  lemma SamePlace(p: Pack, lines: seq<string>, max: nat)
    requires lines != [] && RoomForBlock(p, lines, max)
    ensures NextPlace(p, lines[0], "\n", max) == NextPlace(p, JoinLines(lines), "\n", max)
  {
    hide Bytes, JoinLines;
    JoinedStarts(lines);
    AppendedBytes([], []);
  }

  /** With room for the first line only, the block would make its chunk too long. */
  lemma NoRoom(p: Pack, lines: seq<string>, max: nat, chunks: seq<string>)
    requires lines != [] && lines[0] != [] && !RoomForBlock(p, lines, max) && GoOn(PackPieces(p, lines, max), chunks)
    requires var place := NextPlace(p, lines[0], "\n", max); StandsAt(chunks, place.chunk, place.offset, JoinLines(lines))
    ensures !AllFit(chunks, max)
  {
    hide Bytes, JoinLines, GoOn;
    var q, body := Appended(p, lines[0], "\n", max), JoinLines(lines);
    AppendedBytes([], []);
    PiecesGoOn(q, lines[1..], max, chunks);
    var n := |p.chunks|;
    var front := p.current + "\n";
    Stands(q, chunks, 0);
    assert q.current[0..] == front + lines[0];
    assert chunks[n][..|front|] == front by {
      assert chunks[n][0..][..|front|] == (front + lines[0])[..|front|];
    }
    var rest := chunks[n][|front|..];
    assert chunks[n] == front + rest && rest == body + rest[|body|..];
    BytesSum(front, rest);
    BytesSum(body, rest[|body|..]);
    BytesSum(p.current, "\n");
  }

  // ------------------------------------------------------------------------------------
  // A line that is over the cap

  /**
    In a text, the pieces of an over-long line follow each other with nothing between them: the
    first ends its chunk, the last begins its chunk, and the ones between are chunks.
   */
  lemma LongLineInChunks(text: string, max: nat, k: nat, before: string, line: string, after: string)
    requires max >= 4 && AtLines(before, after) && k < |ParagraphsOf(TrimEnd(text))|
    requires ParagraphsOf(TrimEnd(text))[k] == before + line + after && NoNewline(line) && Bytes(line) > max
    ensures var chunks, pieces := ChunksOf(text, max), SplitChars(line, max);
            var p := PackBefore(ParagraphsOf(TrimEnd(text))[..k], before, max);
            && |pieces| >= 2 && Concat(pieces) == line
            && var place := NextPlace(p, pieces[0], "\n", max);
               && |chunks| >= place.chunk + |pieces|
               && place.offset <= |chunks[place.chunk]| && chunks[place.chunk][place.offset..] == pieces[0]
               && (forall j :: 0 < j < |pieces| - 1 ==> chunks[place.chunk + j] == pieces[j])
               && Last(pieces) <= chunks[place.chunk + |pieces| - 1]
  {
    hide Bytes, ParagraphsOf, SplitLines, PackPieces, PackBefore, TrimEnd, ChunksOf, NoNewline, GoOn, Appended, SplitChars, Concat;
    LongerThanLine(before, line, after);
    ChunksGoOn(text, max, k, before, line, after);
    OneLine(line, max);
    LongLineStands(PackBefore(ParagraphsOf(TrimEnd(text))[..k], before, max), line, max, ChunksOf(text, max));
  }

  lemma LongerThanLine(before: string, line: string, after: string)
    ensures Bytes(before + line + after) >= Bytes(line)
  {
    hide Bytes;
    BytesSum(before + line, after);
    BytesSum(before, line);
  }

  lemma LongLineStands(p: Pack, line: string, max: nat, chunks: seq<string>)
    requires max >= 4 && Bytes(line) > max && GoOn(PackPieces(p, SplitChars(line, max), max), chunks)
    ensures var pieces := SplitChars(line, max);
            && |pieces| >= 2 && Concat(pieces) == line
            && var place := NextPlace(p, pieces[0], "\n", max);
               && |chunks| >= place.chunk + |pieces|
               && place.offset <= |chunks[place.chunk]| && chunks[place.chunk][place.offset..] == pieces[0]
               && (forall j :: 0 < j < |pieces| - 1 ==> chunks[place.chunk + j] == pieces[j])
               && Last(pieces) <= chunks[place.chunk + |pieces| - 1]
  {
    hide Bytes, PackPieces, Appended, SplitChars, Concat;
    var pieces := SplitChars(line, max);
    LongLinePacked(p, line, max);
    PiecesOfLongLine(line, max);
    var q, place := Appended(p, pieces[0], "\n", max), NextPlace(p, pieces[0], "\n", max);
    var done := q.chunks + [q.current] + pieces[1..|pieces| - 1];
    assert done <= chunks && |done| == |q.chunks| + |pieces| - 1;
    assert chunks[|q.chunks|] == done[|q.chunks|] == q.current;
    forall j | 0 < j < |pieces| - 1 ensures chunks[place.chunk + j] == pieces[j] {
      assert done[|q.chunks| + j] == pieces[1..|pieces| - 1][j - 1];
    }
  }

  // ------------------------------------------------------------------------------------
  // Fenced blocks

  /** The scan of a text when it reaches a block. */
  function Reached(t: string, head: seq<string>): (s: Scan)
    requires LinesAt(t, 0, head)
    ensures InText(t, s)
  {
    ScanOver(t, Scan([], 0, 0, false), head)
  }

  /** The paragraph begun is found, with what there is of it and more lines. */
  lemma {:induction false} BegunIsFound(t: string, s: Scan) returns (end: nat)
    requires InText(t, s) && TrimEnd(t[s.start..s.pos]) != []
    ensures s.pos <= end <= |t| && s.out + [TrimEnd(t[s.start..end])] <= ScanAll(t, s)
    decreases |t| - s.pos
  {
    hide TrimEnd, TrimNewlines, FirstLine, Separates, FenceAfter;
    if s.pos == |t| {
      end := s.pos;
    } else {
      var next := ScanLine(t, s);
      if next.start == s.start && next.out == s.out {
        TrimGrows(t, s.start, s.pos, next.pos);
        end := BegunIsFound(t, next);
      } else {
        FoundIsKept(t, next);
        NothingTrimmed();
        end := s.pos;
      }
    }
  }

  lemma NothingTrimmed()
    ensures TrimEnd([]) == []
  {
  }

  lemma TrimGrows(t: string, start: nat, a: nat, b: nat)
    requires start <= a <= b <= |t| && TrimEnd(t[start..a]) != []
    ensures TrimEnd(t[start..b]) != []
  {
    hide TrimEnd;
    TrimEndVisible(t[start..a]);
    var i :| 0 <= i < |t[start..a]| && !IsSpace(t[start..a][i]);
    assert t[start..b][i] == t[start..a][i];
    TrimKeeps(t[start..b], i);
  }

  /** The lines of a block without their newlines, the last one as given. */
  function Shown(block: seq<string>, last: string): seq<string>
    requires block != [] && forall i :: 0 <= i < |block| ==> block[i] != []
    decreases |block|
  {
    if |block| == 1 then [last] else [Init(block[0])] + Shown(block[1..], last)
  }

  lemma {:induction false} LinesNotEmpty(t: string, pos: nat, lines: seq<string>)
    requires LinesAt(t, pos, lines)
    ensures forall i :: 0 <= i < |lines| ==> lines[i] != []
    decreases |lines|
  {
    hide FirstLine;
    if lines != [] {
      LinesNotEmpty(t, pos + |lines[0]|, lines[1..]);
    }
  }

  /** A line ends with its only newline if the text goes on. */
  lemma LineEnds(t: string, pos: nat)
    requires pos < |t|
    ensures var line := FirstLine(t[pos..]);
            && NoNewline(Init(line)) && pos + |line| <= |t|
            && (pos + |line| < |t| ==> Last(line) == '\n')
            && line == t[pos..pos + |line|]
  {
    hide NewlineAt;
  }

  /** The lines shown, one by one. */
  lemma {:induction false} ShownLines(t: string, pos: nat, block: seq<string>, last: string)
    requires LinesAt(t, pos, block) && block != [] && NoNewline(last)
    requires forall i :: 0 <= i < |block| ==> block[i] != []
    ensures var lines := Shown(block, last);
            && |lines| == |block| && (forall i :: 0 <= i < |lines| ==> NoNewline(lines[i])) && Last(lines) == last
            && (forall i :: 0 <= i < |block| - 1 ==> lines[i] + "\n" == block[i])
    decreases |block|
  {
    hide FirstLine, NoNewline;
    LineEnds(t, pos);
    if |block| > 1 {
      var first, rest, next := block[0], block[1..], pos + |block[0]|;
      assert LinesAt(t, next, rest) && next < |t|;
      ShownLines(t, next, rest, last);
      ShownMore(block, last);
      assert Init(first) + "\n" == first;
    }
  }

  /** And joined again. */
  lemma {:induction false} ShownJoins(t: string, pos: nat, block: seq<string>, last: string)
    requires LinesAt(t, pos, block) && block != []
    requires forall i :: 0 <= i < |block| ==> block[i] != []
    ensures Shown(block, last) != [] && pos + Length(block) <= |t| && Length(block) >= |Last(block)|
    ensures JoinLines(Shown(block, last)) == t[pos..pos + Length(block) - |Last(block)|] + last
    decreases |block|
  {
    hide FirstLine, NoNewline, JoinLines;
    LineEnds(t, pos);
    LinesInText(t, pos, block);
    JoinedOne(Shown(block, last));
    var first := block[0];
    if |block| == 1 {
      assert block[1..] == [] && Length(block) == |first|;
      assert t[pos..pos] + last == last;
    } else {
      var rest, next := block[1..], pos + |first|;
      assert Last(rest) == Last(block) && LinesAt(t, next, rest) && next < |t|;
      hide LinesAt, Shown;
      ShownJoins(t, next, rest, last);
      ShownMore(block, last);
      JoinedWithFirst(first, Shown(rest, last), t, pos, next, next + Length(rest) - |Last(block)|, last);
    }
  }

  lemma JoinedWithFirst(first: string, lines: seq<string>, t: string, pos: nat, next: nat, end: nat, last: string)
    requires first != [] && Last(first) == '\n' && lines != [] && pos <= next <= end <= |t| && first == t[pos..next]
    requires JoinLines(lines) == t[next..end] + last
    ensures JoinLines([Init(first)] + lines) == t[pos..end] + last
  {
    hide JoinLines;
    JoinedOne([Init(first)] + lines);
    assert ([Init(first)] + lines)[1..] == lines;
    assert Init(first) + "\n" == first;
    SliceInTwo(t, pos, next, end);
    Associate(first, t[next..end], last);
  }

  lemma ShownMore(block: seq<string>, last: string)
    requires |block| > 1 && forall i :: 0 <= i < |block| ==> block[i] != []
    ensures var lines, rest := Shown(block, last), Shown(block[1..], last);
            && lines == [Init(block[0])] + rest && lines[1..] == rest
            && (rest != [] ==> Last(lines) == Last(rest))
  {
  }

  lemma SliceInTwo(t: string, a: nat, b: nat, c: nat)
    requires a <= b <= c <= |t|
    ensures t[a..c] == t[a..b] + t[b..c]
  {
  }

  /** Whatever head of lines the scan is through, a text that goes on goes on at a new line. */
  lemma {:induction false} ReachedAtLine(t: string, pos: nat, head: seq<string>)
    requires LinesAt(t, pos, head) && pos + Length(head) < |t|
    ensures head != [] ==> Length(head) > 0 && t[pos + Length(head) - 1] == '\n'
    decreases |head|
  {
    hide FirstLine;
    if head != [] {
      LineEnds(t, pos);
      LinesNotEmpty(t, pos, head);
      ReachedAtLine(t, pos + |head[0]|, head[1..]);
      if head[1..] == [] {
        assert Length(head) == |head[0]|;
        assert t[pos..pos + |head[0]|][|head[0]| - 1] == '\n';
      }
    }
  }

  /** A block as its paragraph shows it: its lines, the last one without trailing whitespace if
      the paragraph ends with it. */
  predicate ShowsBlock(lines: seq<string>, block: seq<string>) {
    && lines != [] && |lines| == |block| && lines[0] != [] && (forall i :: 0 <= i < |lines| ==> NoNewline(lines[i]))
    && (forall i :: 0 <= i < |block| - 1 ==> lines[i] + "\n" == block[i])
    && Last(lines) <= Last(block) && Blank(Last(block)[|Last(lines)|..])
  }

  lemma FenceShows(line: string)
    requires Fences(line)
    ensures line != [] && !IsSpace(line[0])
  {
  }

  /** The lines of a block with its last line cut short. */
  lemma ShowsShown(t: string, a: nat, block: seq<string>, last: string) returns (lines: seq<string>)
    requires LinesAt(t, a, block) && FencedBlock(block) && last <= Last(block) && NoNewline(last)
    requires Blank(Last(block)[|last|..])
    ensures ShowsBlock(lines, block) && lines != [] && a + Length(block) <= |t| && Length(block) >= |Last(block)|
    ensures JoinLines(lines) == t[a..a + Length(block) - |Last(block)|] + last
  {
    hide TrimNewlines, FirstLine, LinesAt, Blank, NoNewline, JoinLines, Shown, Length;
    LinesNotEmpty(t, a, block);
    ShownLines(t, a, block, last);
    ShownJoins(t, a, block, last);
    lines := Shown(block, last);
    FenceShows(block[0]);
    FirstShown(block, last);
  }

  /** A block that ends its paragraph. */
  lemma BlockEnds(t: string, a: nat, block: seq<string>) returns (lines: seq<string>)
    requires LinesAt(t, a, block) && FencedBlock(block) && a + Length(block) <= |t|
    ensures ShowsBlock(lines, block) && lines != [] && TrimEnd(t[a..a + Length(block)]) == JoinLines(lines)
  {
    hide TrimEnd, LinesAt, FencedBlock, ShowsBlock, Blank, NoNewline, JoinLines, Length;
    var shown := TrimmedLast(t, a, block);
    lines := ShowsShown(t, a, block, shown);
  }

  /** A block with more lines of its paragraph after it. */
  lemma BlockGoesOn(t: string, a: nat, block: seq<string>, rest: string) returns (lines: seq<string>)
    requires LinesAt(t, a, block) && FencedBlock(block) && a + Length(block) < |t|
    ensures ShowsBlock(lines, block) && lines != [] && t[a..a + Length(block)] + rest == JoinLines(lines) + ("\n" + rest)
  {
    hide LinesAt, TrimNewlines, ShowsBlock, Blank, NoNewline, JoinLines, Length;
    var b, last := a + Length(block), Last(block);
    LastLine(t, a, block);
    InitBlank(last);
    lines := ShowsShown(t, a, block, Init(last));
    SliceInTwo(t, a, b - |last|, b);
    NewlineBack(t[a..b - |last|], last, rest);
  }

  /** What the rest of a paragraph from a block on shows of the block, and what comes after. */
  lemma ParagraphShows(t: string, a: nat, block: seq<string>, end: nat) returns (lines: seq<string>, after: string)
    requires LinesAt(t, a, block) && FencedBlock(block) && a + Length(block) <= end <= |t|
    ensures ShowsBlock(lines, block) && lines != [] && (after == [] || after[0] == '\n')
    ensures TrimEnd(t[a..end]) == JoinLines(lines) + after && !Blank(t[a..end])
  {
    hide TrimEnd, LinesAt, FencedBlock, ShowsBlock, Blank, NoNewline, JoinLines, Length;
    var b := a + Length(block);
    BlockNotBlank(t, a, block);
    TrimEndVisible(t[a..b]);
    SliceInTwo(t, a, b, end);
    TrimSum(t[a..b], t[b..end]);
    SomeNotBlank(t[a..b], t[b..end]);
    if Blank(t[b..end]) {
      lines := BlockEnds(t, a, block);
      after := [];
      assert JoinLines(lines) + after == JoinLines(lines);
    } else {
      NothingBlank(t, b, end);
      lines := BlockGoesOn(t, a, block, TrimEnd(t[b..end]));
      after := "\n" + TrimEnd(t[b..end]);
    }
  }

  lemma NewlineBack(x: string, line: string, rest: string)
    requires line != [] && Last(line) == '\n'
    ensures (x + line) + rest == (x + Init(line)) + ("\n" + rest)
  {
    assert line == Init(line) + "\n";
  }

  lemma NothingBlank(t: string, b: nat, end: nat)
    requires b <= end <= |t| && !Blank(t[b..end])
    ensures b < end
  {
  }

  lemma SomeNotBlank(x: string, y: string)
    requires !Blank(x)
    ensures !Blank(x + y)
  {
    var i :| 0 <= i < |x| && !IsSpace(x[i]);
    assert (x + y)[i] == x[i];
  }

  lemma InitBlank(line: string)
    requires line != [] && Last(line) == '\n'
    ensures Init(line) <= line && Blank(line[|Init(line)|..])
  {
  }

  lemma FirstShown(block: seq<string>, last: string)
    requires |block| >= 2 && (forall i :: 0 <= i < |block| ==> block[i] != []) && !IsSpace(block[0][0])
    ensures Shown(block, last)[0] == Init(block[0])
    ensures Last(block[0]) == '\n' ==> Init(block[0]) != []
  {
  }

  /** The last line of a block: where it is, and its newline. */
  lemma {:induction false} LastLine(t: string, pos: nat, block: seq<string>)
    requires LinesAt(t, pos, block) && block != []
    ensures var end := pos + Length(block);
            && end <= |t| && Length(block) >= |Last(block)| > 0 && Last(block) == t[end - |Last(block)|..end]
            && NoNewline(Init(Last(block))) && (end < |t| ==> Last(Last(block)) == '\n')
    decreases |block|
  {
    hide FirstLine, NoNewline;
    LineEnds(t, pos);
    LinesNotEmpty(t, pos, block);
    if |block| == 1 {
      assert block[1..] == [] && Length(block) == |block[0]|;
    } else {
      LastLine(t, pos + |block[0]|, block[1..]);
      assert Last(block[1..]) == Last(block);
    }
  }

  /** The last line of a block that ends its paragraph, without trailing whitespace. */
  lemma TrimmedLast(t: string, a: nat, block: seq<string>) returns (last: string)
    requires LinesAt(t, a, block) && FencedBlock(block) && a + Length(block) <= |t|
    ensures last <= Last(block) && NoNewline(last) && Blank(Last(block)[|last|..])
    ensures Length(block) >= |Last(block)|
    ensures TrimEnd(t[a..a + Length(block)]) == t[a..a + Length(block) - |Last(block)|] + last
  {
    hide TrimEnd, TrimNewlines, FirstLine, LinesAt, Blank, Length, NoNewline;
    var line := Last(block);
    LastLine(t, a, block);
    FenceShows(line);
    last := TrimEnd(line);
    TrimmedHasNoNewline(line);
    ShowsNotBlank(line);
    var b := a + Length(block);
    SliceInTwo(t, a, b - |line|, b);
    TrimSum(t[a..b - |line|], line);
  }

  lemma ShowsNotBlank(line: string)
    requires line != [] && !IsSpace(line[0])
    ensures !Blank(line)
  {
  }

  lemma TrimmedHasNoNewline(line: string)
    requires line != [] && NoNewline(Init(line))
    ensures NoNewline(TrimEnd(line))
  {
    hide TrimEnd;
    var u := TrimEnd(line);
    forall i | 0 <= i < |u| ensures u[i] != '\n' {
      if i < |line| - 1 {
        assert u[i] == Init(line)[i];
      } else {
        assert u[i] == Last(u);
      }
    }
  }

  /** The text of a block's paragraph before the block. */
  function TextBefore(t: string, head: seq<string>): string
    requires LinesAt(t, 0, head)
  {
    t[Reached(t, head).start..Reached(t, head).pos]
  }

  /** The paragraph that the scan is in when it reaches a fenced block, up to some end after it. */
  lemma BlockIsFound(t: string, head: seq<string>, block: seq<string>) returns (end: nat)
    requires LinesAt(t, 0, head + block) && FencedBlock(block) && !OpenAfter(head, false)
    ensures LinesAt(t, 0, head) && LinesAt(t, Length(head), block) && Reached(t, head).pos == Length(head) < |t|
    ensures Length(head) + Length(block) <= end <= |t|
    ensures var s := Reached(t, head); s.out + [TrimEnd(t[s.start..end])] <= ParagraphsOf(t)
  {
    hide TrimEnd, LinesAt, Length, ScanAll, ScanOver, FencedBlock, OpenAfter;
    ScanOverKeeps(t, Scan([], 0, 0, false), head, block);
    var s := Reached(t, head);
    FenceIsRead(t, s, block);
    var b := s.pos + Length(block);
    BlockNotBlank(t, s.pos, block);
    TrimGrowsFrom(t, s.start, s.pos, b);
    end := BegunIsFound(t, Scan(s.out, s.start, b, false));
  }

  /** A fenced block is whole lines of the paragraph that the scan is in when it reaches it. */
  lemma BlockInParagraph(t: string, head: seq<string>, block: seq<string>) returns (lines: seq<string>, after: string)
    requires LinesAt(t, 0, head + block) && FencedBlock(block) && !OpenAfter(head, false)
    ensures LinesAt(t, 0, head) && ShowsBlock(lines, block) && AtLines(TextBefore(t, head), after)
    ensures lines != [] && JoinLines(lines) <= t[Reached(t, head).pos..]
    ensures var k := |Reached(t, head).out|;
            && k < |ParagraphsOf(t)| && ParagraphsOf(t)[..k] == Reached(t, head).out
            && ParagraphsOf(t)[k] == TextBefore(t, head) + JoinLines(lines) + after
  {
    hide TrimEnd, LinesAt, Blank, JoinLines, Length, ParagraphsOf, Reached, FencedBlock, ShowsBlock, OpenAfter;
    var end := BlockIsFound(t, head, block);
    var s := Reached(t, head);
    var a := s.pos;
    lines, after := ParagraphShows(t, a, block, end);
    TrimmedStarts(t, a, end, JoinLines(lines), after);
    SliceInTwo(t, s.start, a, end);
    TrimSum(t[s.start..a], t[a..end]);
    Associate(t[s.start..a], JoinLines(lines), after);
    BeforeEnds(t, head);
    FoundAt(s.out, TrimEnd(t[s.start..end]), ParagraphsOf(t));
  }

  lemma TrimmedStarts(t: string, a: nat, end: nat, body: string, after: string)
    requires a <= end <= |t| && TrimEnd(t[a..end]) == body + after
    ensures body <= t[a..]
  {
    hide TrimEnd;
    var u := TrimEnd(t[a..end]);
    forall i | 0 <= i < |body| ensures t[a..][i] == body[i] {
      assert t[a..][i] == t[a..end][i] == u[i] == (body + after)[i];
    }
  }

  lemma FoundAt(out: seq<string>, paragraph: string, all: seq<string>)
    requires out + [paragraph] <= all
    ensures |out| < |all| && all[..|out|] == out && all[|out|] == paragraph
  {
    assert all[|out|] == (out + [paragraph])[|out|];
  }

  lemma TrimGrowsFrom(t: string, start: nat, a: nat, b: nat)
    requires start <= a <= b <= |t| && TrimEnd(t[a..b]) != []
    ensures TrimEnd(t[start..b]) != []
  {
    hide TrimEnd;
    TrimEndVisible(t[a..b]);
    var i :| 0 <= i < |t[a..b]| && !IsSpace(t[a..b][i]);
    assert t[start..b][a - start + i] == t[a..b][i];
    TrimKeeps(t[start..b], a - start + i);
  }

  lemma BeforeEnds(t: string, head: seq<string>)
    requires LinesAt(t, 0, head) && Reached(t, head).pos == Length(head) < |t|
    ensures TextBefore(t, head) == [] || Last(TextBefore(t, head)) == '\n'
  {
    hide FirstLine, ScanOver, LinesAt;
    ReachedAtLine(t, 0, head);
  }

  // ------------------------------------------------------------------------------------
  // Where a fenced block stands

  /** A paragraph that fits stands whole where it is put. */
  lemma ParagraphStands(text: string, max: nat, k: nat)
    requires max >= 4 && k < |ParagraphsOf(TrimEnd(text))|
    requires Bytes(ParagraphsOf(TrimEnd(text))[k]) <= max < Bytes(TrimEnd(text))
    ensures var ps := ParagraphsOf(TrimEnd(text));
            var place := NextPlace(PackAll(Pack([], []), ps[..k], max), ps[k], "\n\n", max);
            StandsAt(ChunksOf(text, max), place.chunk, place.offset, ps[k])
  {
    hide Bytes, ParagraphsOf, PackAll, TrimEnd, GoOn, Appended, StandsAt;
    var t := TrimEnd(text);
    var ps := ParagraphsOf(t);
    ParagraphsShowTheText(t);
    AllThrough(ps, k, max);
    var early := PackAll(Pack([], []), ps[..k], max);
    var done := Appended(early, ps[k], "\n\n", max);
    var all := PackAll(done, ps[k + 1..], max);
    NothingBegun(all);
    SomeBytes(t, max);
    FlushGoesOn(all, ChunksOf(text, max));
    AllGoOn(done, ps[k + 1..], max, ChunksOf(text, max));
    Stands(done, ChunksOf(text, max), NextPlace(early, ps[k], "\n\n", max).offset);
  }

  lemma SomeBytes(t: string, max: nat)
    requires Bytes(t) > max
    ensures t != []
  {
  }

  lemma StandsInside(chunks: seq<string>, n: nat, offset: nat, before: string, body: string, after: string)
    requires StandsAt(chunks, n, offset, before + body + after)
    ensures StandsAt(chunks, n, offset + |before|, body)
  {
    var whole, rest := before + body + after, chunks[n][offset..];
    assert chunks[n][offset + |before|..] == rest[|before|..];
    assert whole[|before|..|before| + |body|] == body && rest[..|whole|] == whole;
    assert rest[|before|..][..|body|] == whole[|before|..|before| + |body|];
  }

  /** The place where a block begins, for a text in one chunk, a paragraph that fits, and one that
      does not. */
  function BlockPlace(t: string, head: seq<string>, first: string, paragraph: string, max: nat): Place
    requires max >= 4 && LinesAt(t, 0, head)
  {
    var s, before := Reached(t, head), TextBefore(t, head);
    if Bytes(t) <= max then Place(0, s.pos)
    else if Bytes(paragraph) <= max then
      var place := NextPlace(PackAll(Pack([], []), s.out, max), paragraph, "\n\n", max);
      Place(place.chunk, place.offset + |before|)
    else NextPlace(PackBefore(s.out, before, max), first, "\n", max)
  }

  /**
    For every text and cap, a fenced block that fits the cap, with the lines its paragraph shows
    of it, stands whole in the chunk where it begins, if and only if its paragraph fits the cap or
    the chunk being filled when the block is reached has room for all of it or not even for its
    first line.
   */
  lemma FenceWholeExactly(text: string, max: nat, head: seq<string>, block: seq<string>)
    returns (lines: seq<string>, after: string)
    requires max >= 4 && LinesAt(TrimEnd(text), 0, head + block) && FencedBlock(block) && !OpenAfter(head, false)
    ensures LinesAt(TrimEnd(text), 0, head) && ShowsBlock(lines, block) && lines != []
    ensures var t := TrimEnd(text);
            var k := |Reached(t, head).out|;
            && k < |ParagraphsOf(t)| && ParagraphsOf(t)[..k] == Reached(t, head).out
            && ParagraphsOf(t)[k] == TextBefore(t, head) + JoinLines(lines) + after
            && (Bytes(JoinLines(lines)) <= max ==>
                  var place := BlockPlace(t, head, lines[0], ParagraphsOf(t)[k], max);
                  && StandsAt(ChunksOf(text, max), place.chunk, place.offset, lines[0])
                  && (StandsAt(ChunksOf(text, max), place.chunk, place.offset, JoinLines(lines)) <==>
                      || Bytes(ParagraphsOf(t)[k]) <= max
                      || RoomForBlock(PackBefore(Reached(t, head).out, TextBefore(t, head), max), lines, max)))
  {
    hide TrimEnd, Bytes, ParagraphsOf, LinesAt, FencedBlock, OpenAfter, NoNewline, JoinLines, StandsAt, RoomForBlock,
         Reached, TextBefore, PackAll, PackBefore, AtLines, ChunksOf;
    var t := TrimEnd(text);
    lines, after := BlockInParagraph(t, head, block);
    if Bytes(JoinLines(lines)) <= max {
      var k := |Reached(t, head).out|;
      if Bytes(t) <= max {
        OneChunk(text, max, head, lines);
      } else if Bytes(ParagraphsOf(t)[k]) <= max {
        ParagraphStands(text, max, k);
        var place := NextPlace(PackAll(Pack([], []), ParagraphsOf(t)[..k], max), ParagraphsOf(t)[k], "\n\n", max);
        StandsInside(ChunksOf(text, max), place.chunk, place.offset, TextBefore(t, head), JoinLines(lines), after);
        FirstStands(ChunksOf(text, max), place.chunk, place.offset + |TextBefore(t, head)|, lines);
      } else {
        LinesWholeExactly(text, max, k, TextBefore(t, head), lines, after);
      }
    }
  }

  lemma FirstStands(chunks: seq<string>, n: nat, offset: nat, lines: seq<string>)
    requires lines != [] && StandsAt(chunks, n, offset, JoinLines(lines))
    ensures StandsAt(chunks, n, offset, lines[0])
  {
    JoinedStarts(lines);
  }

  /** A text that fits is one chunk, and the block stands in it where it stands in the text. */
  lemma OneChunk(text: string, max: nat, head: seq<string>, lines: seq<string>)
    requires max >= 4 && lines != [] && LinesAt(TrimEnd(text), 0, head) && Bytes(TrimEnd(text)) <= max
    requires JoinLines(lines) <= TrimEnd(text)[Reached(TrimEnd(text), head).pos..]
    requires |Reached(TrimEnd(text), head).out| < |ParagraphsOf(TrimEnd(text))|
    ensures var t := TrimEnd(text);
            var a := Reached(t, head).pos;
            && StandsAt(ChunksOf(text, max), 0, a, JoinLines(lines)) && StandsAt(ChunksOf(text, max), 0, a, lines[0])
            && Bytes(ParagraphsOf(t)[|Reached(t, head).out|]) <= max
  {
    hide TrimEnd, Bytes, ParagraphsOf, JoinLines, Reached, PackAll;
    var t := TrimEnd(text);
    var k := |Reached(t, head).out|;
    ParagraphsShowTheText(t);
    WithinBytes(ParagraphsOf(t)[k], t);
    PartNotEmpty(ParagraphsOf(t)[k], t);
    assert ChunksOf(text, max) == [t];
    FirstStands([t], 0, Reached(t, head).pos, lines);
  }
}
