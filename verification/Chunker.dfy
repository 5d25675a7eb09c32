/**
  Outbound text in chunks of at most a cap of bytes (crates/silta/src/text.rs): by paragraphs,
  an over-long paragraph by lines, an over-long line by characters.
 */
module Chunker {
  import opened Prelude
  import opened Text

  /** How many characters from the front fit in `max` bytes. */
  function FitLength(s: string, max: nat): (n: nat)
    ensures n <= |s| && Bytes(s[..n]) <= max
    ensures n < |s| ==> Bytes(s[..n]) + CharBytes(s[n]) > max
  {
    if s == [] || CharBytes(s[0]) > max then
      assert s[..0] == [];
      0
    else
      var n := 1 + FitLength(s[1..], max - CharBytes(s[0]));
      assert s[..n][1..] == s[1..][..n - 1];
      n
  }

  /** An over-long line in pieces, each as long as fits. */
  function SplitChars(line: string, max: nat): seq<string>
    requires max >= 4
    decreases |line|
  {
    if line == [] then []
    else
      var n := FitLength(line, max);
      assert n > 0 by { assert line[..0] == []; }
      [line[..n]] + SplitChars(line[n..], max)
  }

  function PiecesOfLine(line: string, max: nat): seq<string>
    requires max >= 4
  {
    if Bytes(line) <= max then [line] else SplitChars(line, max)
  }

  function SplitLines(paragraph: string, max: nat): seq<string>
    requires max >= 4
    decreases |paragraph|
  {
    var i := NewlineAt(paragraph);
    if i == |paragraph| then PiecesOfLine(paragraph, max)
    else PiecesOfLine(paragraph[..i], max) + SplitLines(paragraph[i + 1..], max)
  }

  /** The chunks done and the one being filled. */
  datatype Pack = Pack(chunks: seq<string>, current: string)

  function Flushed(p: Pack): Pack {
    if p.current == [] then p else Pack(p.chunks + [p.current], [])
  }

  function Appended(p: Pack, piece: string, sep: string, max: nat): Pack {
    if p.current == [] then p.(current := piece)
    else if Bytes(p.current) + Bytes(sep) + Bytes(piece) <= max then p.(current := p.current + sep + piece)
    else Pack(Flushed(p).chunks, piece)
  }

  function PackPieces(p: Pack, pieces: seq<string>, max: nat): Pack
    decreases pieces
  {
    if pieces == [] then p else PackPieces(Appended(p, pieces[0], "\n", max), pieces[1..], max)
  }

  function PackParagraph(p: Pack, paragraph: string, max: nat): Pack
    requires max >= 4
  {
    if Bytes(paragraph) > max then PackPieces(Flushed(p), SplitLines(paragraph, max), max)
    else Appended(p, paragraph, "\n\n", max)
  }

  function PackAll(p: Pack, paragraphs: seq<string>, max: nat): Pack
    requires max >= 4
    decreases paragraphs
  {
    if paragraphs == [] then p else PackAll(PackParagraph(p, paragraphs[0], max), paragraphs[1..], max)
  }

  function ChunksOf(text: string, max: nat): seq<string>
    requires max >= 4
  {
    var t := TrimEnd(text);
    if t == [] then []
    else if Bytes(t) <= max then [t]
    else Flushed(PackAll(Pack([], []), ParagraphsOf(t), max)).chunks
  }

  // ------------------------------------------------------------------------------------
  // The loops

  method SplitCharsLoop(line: string, max: nat) returns (out: seq<string>)
    requires max >= 4
    ensures out == SplitChars(line, max)
  {
    out := [];
    var start, i := 0, 0;
    NoPieces(max);
    hide Bytes, CharBytes, SplitChars;
    assert line[0..0] == [] && line[0..] == line;
    while i < |line|
      invariant 0 <= start <= i <= |line| && (start == i ==> i == 0)
      invariant Bytes(line[start..i]) <= max
      invariant SplitChars(line, max) == out + SplitChars(line[start..], max)
    {
      SliceBytes(line, start, i);
      if Bytes(line[start..i]) + CharBytes(line[i]) > max {
        PieceIsFull(line, start, i, max);
        Associate(out, [line[start..i]], SplitChars(line[i..], max));
        out := out + [line[start..i]];
        start := i;
        SliceBytes(line, i, i);
      }
      i := i + 1;
    }
    if i > start {
      assert line[start..i] == line[start..];
      LastPiece(line, start, max);
      out := out + [line[start..i]];
    } else {
      assert line[start..] == [];
    }
  }

  lemma NoPieces(max: nat)
    requires max >= 4
    ensures SplitChars([], max) == [] && Bytes([]) == 0
  {
  }

  lemma SliceBytes(s: string, start: nat, i: nat)
    requires start <= i < |s|
    ensures Bytes(s[start..i + 1]) == Bytes(s[start..i]) + CharBytes(s[i])
    ensures start == i ==> Bytes(s[start..i]) == 0
  {
    hide CharBytes;
    assert s[start..i + 1] == s[start..i] + [s[i]];
    BytesSum(s[start..i], [s[i]]);
    BytesOne(s[i]);
    if start == i {
      assert s[start..i] == [];
    }
  }

  lemma {:induction false} FitLengthIs(s: string, max: nat, n: nat)
    requires n <= |s| && Bytes(s[..n]) <= max && (n < |s| ==> Bytes(s[..n]) + CharBytes(s[n]) > max)
    ensures FitLength(s, max) == n
  {
    hide CharBytes;
    if s != [] {
      if n == 0 {
        assert s[..0] == [];
      } else {
        assert s[..n][1..] == s[1..][..n - 1];
        FitLengthIs(s[1..], max - CharBytes(s[0]), n - 1);
      }
    }
  }

  lemma PieceIsFull(line: string, start: nat, i: nat, max: nat)
    requires max >= 4 && start <= i < |line|
    requires Bytes(line[start..i]) <= max < Bytes(line[start..i]) + CharBytes(line[i])
    ensures start < i && SplitChars(line[start..], max) == [line[start..i]] + SplitChars(line[i..], max)
  {
    hide CharBytes;
    var rest := line[start..];
    assert rest[..i - start] == line[start..i] && rest[i - start..] == line[i..];
    FitLengthIs(rest, max, i - start);
  }

  lemma LastPiece(line: string, start: nat, max: nat)
    requires max >= 4 && start < |line| && Bytes(line[start..]) <= max
    ensures SplitChars(line[start..], max) == [line[start..|line|]]
  {
    hide CharBytes;
    var rest := line[start..];
    assert rest[..|rest|] == rest && rest[|rest|..] == [] && line[start..|line|] == rest;
    FitLengthIs(rest, max, |rest|);
  }

  method SplitLinesLoop(paragraph: string, max: nat) returns (out: seq<string>)
    requires max >= 4
    ensures out == SplitLines(paragraph, max)
  {
    out := [];
    var rest, more := paragraph, true;
    while more
      invariant more ==> SplitLines(paragraph, max) == out + SplitLines(rest, max)
      invariant !more ==> SplitLines(paragraph, max) == out
      decreases more, |rest|
    {
      var i := NewlineAt(rest);
      var line := rest[..i];
      var pieces;
      if Bytes(line) <= max {
        pieces := [line];
      } else {
        pieces := SplitCharsLoop(line, max);
      }
      if i < |rest| {
        Associate(out, pieces, SplitLines(rest[i + 1..], max));
        rest := rest[i + 1..];
      } else {
        assert line == rest;
        more := false;
      }
      out := out + pieces;
    }
  }

  method Append(chunks: seq<string>, current: string, piece: string, sep: string, max: nat)
    returns (chunks': seq<string>, current': string)
    ensures Pack(chunks', current') == Appended(Pack(chunks, current), piece, sep, max)
  {
    chunks', current' := chunks, current;
    if current == [] {
      current' := current' + piece;
    } else if Bytes(current) + Bytes(sep) + Bytes(piece) <= max {
      current' := current' + sep;
      current' := current' + piece;
    } else {
      chunks', current' := Flush(chunks', current');
      current' := current' + piece;
    }
  }

  method Flush(chunks: seq<string>, current: string) returns (chunks': seq<string>, current': string)
    ensures Pack(chunks', current') == Flushed(Pack(chunks, current))
  {
    chunks', current' := chunks, current;
    if current != [] {
      chunks', current' := chunks + [current], [];
    }
  }

  method ChunkText(text: string, max: nat) returns (chunks: seq<string>)
    requires max >= 4
    ensures chunks == ChunksOf(text, max)
  {
    var t := TrimEnd(text);
    if t == [] {
      return [];
    }
    if Bytes(t) <= max {
      return [t];
    }
    chunks := [];
    var current := [];
    var paragraphs := Paragraphs(t);
    ghost var all := PackAll(Pack([], []), paragraphs, max);
    for k := 0 to |paragraphs|
      invariant PackAll(Pack(chunks, current), paragraphs[k..], max) == all
    {
      var paragraph := paragraphs[k];
      assert paragraphs[k..][1..] == paragraphs[k + 1..];
      ghost var packed := PackParagraph(Pack(chunks, current), paragraph, max);
      if Bytes(paragraph) > max {
        chunks, current := Flush(chunks, current);
        var pieces := SplitLinesLoop(paragraph, max);
        for j := 0 to |pieces|
          invariant PackPieces(Pack(chunks, current), pieces[j..], max) == packed
        {
          assert pieces[j..][1..] == pieces[j + 1..];
          chunks, current := Append(chunks, current, pieces[j], "\n", max);
        }
      } else {
        chunks, current := Append(chunks, current, paragraph, "\n\n", max);
      }
      assert Pack(chunks, current) == packed;
    }
    chunks, current := Flush(chunks, current);
  }
}
