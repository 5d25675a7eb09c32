/**
  Characters, whitespace and paragraphs of outbound text (crates/silta/src/text.rs). A text is
  a sequence of Unicode scalar values; its length in bytes is that of its UTF-8 form.
 */
module Text {
  import opened Prelude

  /** The Unicode property White_Space. */
  predicate IsSpace(c: char) {
    var n := c as int;
    || 9 <= n <= 13 || n == 0x20 || n == 0x85 || n == 0xA0 || n == 0x1680 || 0x2000 <= n <= 0x200A
    || n == 0x2028 || n == 0x2029 || n == 0x202F || n == 0x205F || n == 0x3000
  }

  function CharBytes(c: char): (n: nat)
    ensures 1 <= n <= 4
  {
    var v := c as int;
    if v < 0x80 then 1 else if v < 0x800 then 2 else if v < 0x1_0000 then 3 else 4
  }

  /** The UTF-8 form of a character (section 3 of RFC 3629). */
  function Utf8(c: char): seq<int> {
    var v := c as int;
    if v < 0x80 then [v]
    else if v < 0x800 then [0xC0 + v / 64, 0x80 + v % 64]
    else if v < 0x1_0000 then [0xE0 + v / 64 / 64, 0x80 + v / 64 % 64, 0x80 + v % 64]
    else [0xF0 + v / 64 / 64 / 64, 0x80 + v / 64 / 64 % 64, 0x80 + v / 64 % 64, 0x80 + v % 64]
  }

  /** The number of the character whose UTF-8 form this is. */
  function Decoded(bytes: seq<int>): int {
    if |bytes| == 1 then bytes[0]
    else if |bytes| == 2 then (bytes[0] - 0xC0) * 64 + bytes[1] - 0x80
    else if |bytes| == 3 then ((bytes[0] - 0xE0) * 64 + bytes[1] - 0x80) * 64 + bytes[2] - 0x80
    else if |bytes| == 4 then (((bytes[0] - 0xF0) * 64 + bytes[1] - 0x80) * 64 + bytes[2] - 0x80) * 64 + bytes[3] - 0x80
    else 0
  }

  lemma Sixes(n: int)
    ensures n / 64 * 64 + n % 64 == n
  {
  }

  /** The bytes counted for a character are those of its UTF-8 form, which decodes to it. */
  lemma CharBytesAre(c: char)
    ensures |Utf8(c)| == CharBytes(c) && Decoded(Utf8(c)) == c as int
  {
    var v := c as int;
    Sixes(v);
    Sixes(v / 64);
    Sixes(v / 64 / 64);
  }

  /** They are bytes, and no more than there have to be. */
  lemma CharBytesLeast(c: char)
    ensures forall b :: b in Utf8(c) ==> 0 <= b < 0x100
    ensures c as int >= (match CharBytes(c) case 1 => 0 case 2 => 0x80 case 3 => 0x800 case _ => 0x1_0000)
  {
  }

  function Bytes(s: string): nat {
    if s == [] then 0 else CharBytes(s[0]) + Bytes(s[1..])
  }

  lemma {:induction false} BytesSum(a: string, b: string)
    ensures Bytes(a + b) == Bytes(a) + Bytes(b)
  {
    if a == [] {
      assert a + b == b;
    } else {
      BytesSum(a[1..], b);
      assert (a + b)[1..] == a[1..] + b;
    }
  }

  lemma BytesOne(c: char)
    ensures Bytes([c]) == CharBytes(c)
  {
    assert [c][1..] == [];
  }

  lemma {:induction false} BytesAtLeast(s: string)
    ensures Bytes(s) >= |s|
  {
    if s != [] {
      BytesAtLeast(s[1..]);
    }
  }

  /** What of a text can be seen: everything but whitespace. */
  function Visible(s: string): string {
    if s == [] then [] else (if IsSpace(s[0]) then [] else [s[0]]) + Visible(s[1..])
  }

  lemma Associate<T>(a: seq<T>, b: seq<T>, c: seq<T>)
    ensures (a + b) + c == a + (b + c)
  {
  }

  lemma {:induction false} VisibleSum(a: string, b: string)
    ensures Visible(a + b) == Visible(a) + Visible(b)
  {
    if a == [] {
      assert a + b == b;
    } else {
      VisibleSum(a[1..], b);
      assert (a + b)[1..] == a[1..] + b;
      Associate(if IsSpace(a[0]) then [] else [a[0]], Visible(a[1..]), Visible(b));
    }
  }

  predicate Blank(s: string) {
    forall i :: 0 <= i < |s| ==> IsSpace(s[i])
  }

  lemma {:induction false} BlankIsInvisible(s: string)
    ensures Blank(s) <==> Visible(s) == []
  {
    if s != [] {
      BlankIsInvisible(s[1..]);
      assert Blank(s) <==> IsSpace(s[0]) && Blank(s[1..]);
    }
  }

  function TrimEnd(s: string): (t: string)
    ensures |t| <= |s| && t == s[..|t|] && Blank(s[|t|..])
    ensures t != [] ==> !IsSpace(Last(t))
    decreases |s|
  {
    if s != [] && IsSpace(Last(s)) then
      var t := TrimEnd(Init(s));
      assert s[|t|..] == Init(s)[|t|..] + [Last(s)];
      t
    else s
  }

  lemma TrimEndVisible(s: string)
    ensures Visible(TrimEnd(s)) == Visible(s)
    ensures TrimEnd(s) == [] <==> Blank(s)
  {
    hide TrimEnd, Visible;
    var t := TrimEnd(s);
    var trimmed := s[|t|..];
    assert s == t + trimmed;
    VisibleSum(t, trimmed);
    BlankIsInvisible(trimmed);
    assert Visible(t) + [] == Visible(t);
    hide IsSpace;
    if t == [] {
      assert trimmed == s;
    } else {
      assert s[|t| - 1] == Last(t);
    }
  }

  /** `part` lies whole inside `whole`. */
  ghost predicate Within(part: string, whole: string) {
    exists before, after :: whole == before + part + after
  }

  lemma WithinMore(part: string, whole: string, left: string, right: string)
    requires Within(part, whole)
    ensures Within(part, left + whole + right)
  {
    var before, after :| whole == before + part + after;
    assert left + whole + right == (left + before) + part + (after + right);
  }

  // ------------------------------------------------------------------------------------
  // Lines and paragraphs

  function NewlineAt(s: string): (i: nat)
    ensures i <= |s| && (i < |s| ==> s[i] == '\n')
    ensures forall j :: 0 <= j < i ==> s[j] != '\n'
  {
    if s == [] || s[0] == '\n' then 0 else 1 + NewlineAt(s[1..])
  }

  lemma NewlineAtIs(s: string, i: nat)
    requires i <= |s| && (i < |s| ==> s[i] == '\n') && (forall j :: 0 <= j < i ==> s[j] != '\n')
    ensures NewlineAt(s) == i
  {
    hide NewlineAt;
  }

  /** The first line, with its newline if it has one. */
  function FirstLine(s: string): (line: string)
    ensures |line| <= |s| && line == s[..|line|] && (s != [] ==> line != [])
  {
    if NewlineAt(s) < |s| then s[..NewlineAt(s) + 1] else s
  }

  function TrimNewlines(line: string): (t: string)
    ensures |t| <= |line| && t == line[..|t|] && Blank(line[|t|..])
    decreases |line|
  {
    if line != [] && (Last(line) == '\n' || Last(line) == '\r') then
      var t := TrimNewlines(Init(line));
      assert line[|t|..] == Init(line)[|t|..] + [Last(line)];
      t
    else line
  }

  predicate IsFence(line: string) {
    |line| >= 3 && line[0] == line[1] == line[2] && (line[0] == '`' || line[0] == '~')
  }

  /** Whether the code block state changes at this line. */
  function FenceAfter(line: string, inFence: bool): bool {
    if IsFence(TrimNewlines(line)) then !inFence else inFence
  }

  /** A line that separates paragraphs: blank, and outside a fenced block. */
  predicate Separates(line: string, inFence: bool) {
    Blank(TrimNewlines(line)) && !FenceAfter(line, inFence)
  }

  /** Where the loop over the lines is. */
  datatype Scan = Scan(out: seq<string>, start: nat, pos: nat, inFence: bool)

  predicate InText(text: string, s: Scan) {
    s.start <= s.pos <= |text|
  }

  function ScanLine(text: string, s: Scan): (t: Scan)
    requires InText(text, s) && s.pos < |text|
    ensures InText(text, t) && s.pos < t.pos
  {
    var line := FirstLine(text[s.pos..]);
    var end, fence := s.pos + |line|, FenceAfter(line, s.inFence);
    if !Separates(line, s.inFence) then Scan(s.out, s.start, end, fence)
    else Scan(if s.pos > s.start then s.out + [TrimEnd(text[s.start..s.pos])] else s.out, end, end, fence)
  }

  function ScanAll(text: string, s: Scan): seq<string>
    requires InText(text, s)
    decreases |text| - s.pos
  {
    if s.pos < |text| then ScanAll(text, ScanLine(text, s))
    else
      var tail := TrimEnd(text[s.start..s.pos]);
      if tail == [] then s.out else s.out + [tail]
  }

  /** A blank line ends a paragraph, except inside a fence. */
  function ParagraphsOf(text: string): seq<string> {
    ScanAll(text, Scan([], 0, 0, false))
  }

  method Paragraphs(text: string) returns (out: seq<string>)
    ensures out == ParagraphsOf(text)
  {
    hide TrimEnd, FirstLine, TrimNewlines, Blank;
    out := [];
    var start, pos, inFence, lastBlank := 0, 0, false, false;
    while pos < |text|
      invariant 0 <= start <= pos <= |text| && (lastBlank ==> start == pos)
      invariant ScanAll(text, Scan(out, start, pos, inFence)) == ScanAll(text, Scan([], 0, 0, false))
      decreases |text| - pos
    {
      ghost var next := ScanLine(text, Scan(out, start, pos, inFence));
      var line := FirstLine(text[pos..]);
      var trimmed := TrimNewlines(line);
      if IsFence(trimmed) {
        inFence := !inFence;
      }
      if Blank(trimmed) && !inFence {
        if !lastBlank && pos > start {
          out := out + [TrimEnd(text[start..pos])];
        }
        start := pos + |line|;
        lastBlank := true;
      } else {
        lastBlank := false;
      }
      pos := pos + |line|;
      assert next == Scan(out, start, pos, inFence);
    }
    if pos > start {
      var tail := TrimEnd(text[start..pos]);
      if tail != [] {
        out := out + [tail];
      }
    } else {
      assert text[start..pos] == [];
    }
  }

  // ------------------------------------------------------------------------------------
  // What paragraphs are

  function Concat(parts: seq<string>): string {
    if parts == [] then [] else Concat(Init(parts)) + Last(parts)
  }

  lemma ConcatMore(parts: seq<string>, part: string)
    ensures Concat(parts + [part]) == Concat(parts) + part
  {
    assert Init(parts + [part]) == parts;
  }

  lemma VisibleUpTo(text: string, start: nat, pos: nat)
    requires start <= pos <= |text|
    ensures Visible(text[..pos]) == Visible(text[..start]) + Visible(text[start..pos])
  {
    assert text[..pos] == text[..start] + text[start..pos];
    VisibleSum(text[..start], text[start..pos]);
  }

  /** What the paragraphs found so far show is what the text shows up to where the next one
      starts; each is part of the text; and a paragraph begun shows something. */
  ghost predicate Faithful(text: string, s: Scan) {
    && InText(text, s)
    && Visible(Concat(s.out)) == Visible(text[..s.start])
    && (forall k :: 0 <= k < |s.out| ==> s.out[k] != [] && Within(s.out[k], text))
    && (s.inFence ==> s.start < s.pos)
    && (s.start < s.pos ==> !Blank(text[s.start..s.pos]))
  }

  lemma SliceWithin(text: string, start: nat, pos: nat)
    requires start <= pos <= |text|
    ensures Within(TrimEnd(text[start..pos]), text)
  {
    var part := text[start..pos];
    var t := TrimEnd(part);
    assert text == text[..start] + t + (part[|t|..] + text[pos..]);
  }

  lemma NewlinesAreBlank(line: string)
    ensures Blank(TrimNewlines(line)) <==> Blank(line)
    ensures IsFence(TrimNewlines(line)) ==> !Blank(line)
  {
    var t := TrimNewlines(line);
    assert line == t + line[|t|..];
    if Blank(t) {
      assert forall i :: |t| <= i < |line| ==> line[i] == line[|t|..][i - |t|];
      assert forall i :: 0 <= i < |t| ==> line[i] == t[i];
    } else {
      var i :| 0 <= i < |t| && !IsSpace(t[i]);
      assert line[i] == t[i];
    }
    if IsFence(t) {
      assert !IsSpace(t[0]) && line[0] == t[0];
    }
  }

  lemma LongerNotBlank(a: string, b: string)
    ensures Blank(a + b) <==> Blank(a) && Blank(b)
  {
    assert forall i :: 0 <= i < |a| ==> (a + b)[i] == a[i];
    assert forall i :: 0 <= i < |b| ==> (a + b)[|a| + i] == b[i];
  }

  lemma LineSlice(text: string, start: nat, pos: nat, line: string)
    requires start <= pos && pos + |line| <= |text| && line == text[pos..][..|line|]
    ensures text[pos..pos + |line|] == line
    ensures text[start..pos + |line|] == text[start..pos] + line
  {
    assert text[pos..][..|line|] == text[pos..pos + |line|];
  }

  /** A line that goes on with a paragraph. */
  lemma GoesOnFaithfully(text: string, s: Scan, line: string, fence: bool)
    requires Faithful(text, s) && s.pos + |line| <= |text| && line == text[s.pos..][..|line|]
    requires !Separates(line, s.inFence) && fence == FenceAfter(line, s.inFence)
    ensures Faithful(text, Scan(s.out, s.start, s.pos + |line|, fence))
  {
    NewlinesAreBlank(line);
    LineSlice(text, s.start, s.pos, line);
    LongerNotBlank(text[s.start..s.pos], line);
    if s.start == s.pos {
      assert !Blank(line) && line != [];
    }
  }

  /** A line that ends a paragraph, if one was begun. */
  lemma SeparatesFaithfully(text: string, s: Scan, line: string)
    requires Faithful(text, s) && s.pos + |line| <= |text| && line == text[s.pos..][..|line|]
    requires Separates(line, s.inFence)
    ensures var out := if s.pos > s.start then s.out + [TrimEnd(text[s.start..s.pos])] else s.out;
            Faithful(text, Scan(out, s.pos + |line|, s.pos + |line|, false))
  {
    hide TrimEnd, Visible, Concat, TrimNewlines;
    NewlinesAreBlank(line);
    LineSlice(text, s.start, s.pos, line);
    ClosedShows(text, s.start, s.pos, s.pos + |line|, s.out);
    if s.start < s.pos {
      SliceWithin(text, s.start, s.pos);
      TrimEndVisible(text[s.start..s.pos]);
    }
  }

  lemma ClosedShows(text: string, start: nat, pos: nat, end: nat, out: seq<string>)
    requires start <= pos <= end <= |text| && Blank(text[pos..end]) && Visible(Concat(out)) == Visible(text[..start])
    ensures Visible(Concat(out + [TrimEnd(text[start..pos])])) == Visible(text[..end])
    ensures start == pos ==> Visible(Concat(out)) == Visible(text[..end])
  {
    var part := text[start..pos];
    BlankIsInvisible(text[pos..end]);
    VisibleUpTo(text, pos, end);
    VisibleUpTo(text, start, pos);
    TrimEndVisible(part);
    ConcatMore(out, TrimEnd(part));
    VisibleSum(Concat(out), TrimEnd(part));
  }

  lemma {:induction false} ScanIsFaithful(text: string, s: Scan)
    requires Faithful(text, s)
    ensures var paragraphs := ScanAll(text, s);
            && Visible(Concat(paragraphs)) == Visible(text)
            && forall k :: 0 <= k < |paragraphs| ==> paragraphs[k] != [] && Within(paragraphs[k], text)
    decreases |text| - s.pos
  {
    hide TrimEnd, FirstLine, TrimNewlines, Visible, Blank, FenceAfter, Concat, Within;
    if s.pos < |text| {
      var line := FirstLine(text[s.pos..]);
      if Separates(line, s.inFence) {
        SeparatesFaithfully(text, s, line);
      } else {
        GoesOnFaithfully(text, s, line, FenceAfter(line, s.inFence));
      }
      ScanIsFaithful(text, ScanLine(text, s));
    } else {
      LastIsFaithful(text, s);
    }
  }

  lemma LastIsFaithful(text: string, s: Scan)
    requires Faithful(text, s) && s.pos == |text|
    ensures var paragraphs := ScanAll(text, s);
            && Visible(Concat(paragraphs)) == Visible(text)
            && forall k :: 0 <= k < |paragraphs| ==> paragraphs[k] != [] && Within(paragraphs[k], text)
  {
    hide TrimEnd, Visible, Within, IsSpace;
    var part := text[s.start..s.pos];
    var tail := TrimEnd(part);
    VisibleUpTo(text, s.start, s.pos);
    assert text[..s.pos] == text;
    TrimEndVisible(part);
    BlankIsInvisible(part);
    SliceWithin(text, s.start, s.pos);
    ConcatMore(s.out, tail);
    VisibleSum(Concat(s.out), tail);
    assert Visible(text[..s.start]) + [] == Visible(text[..s.start]);
  }

  /** The paragraphs of a text show what the text shows, in order; each shows something and is
      part of the text. */
  lemma ParagraphsShowTheText(text: string)
    ensures Visible(Concat(ParagraphsOf(text))) == Visible(text)
    ensures forall k :: 0 <= k < |ParagraphsOf(text)| ==> ParagraphsOf(text)[k] != [] && Within(ParagraphsOf(text)[k], text)
  {
    assert text[..0] == [] && text[0..0] == [];
    ScanIsFaithful(text, Scan([], 0, 0, false));
  }

  // ------------------------------------------------------------------------------------
  // Fenced blocks stay whole

  /** A line that opens or closes a fenced block. */
  predicate Fences(line: string) {
    "```" <= line || "~~~" <= line
  }

  /** A fenced block: an opening fence, lines that are no fences, and a closing fence, each a
      whole line. */
  predicate FencedBlock(lines: seq<string>) {
    |lines| >= 2 && Fences(lines[0]) && Fences(Last(lines)) && forall k :: 0 < k < |lines| - 1 ==> !Fences(lines[k])
  }

  /** The scan sees exactly these lines as fences. */
  lemma FenceMeans(line: string)
    ensures IsFence(TrimNewlines(line)) <==> Fences(line)
  {
    hide TrimNewlines;
    var t := TrimNewlines(line);
    if Fences(line) {
      assert forall i :: 0 <= i < 3 ==> !IsSpace(line[i]);
      assert |t| >= 3 by {
        assert forall i :: |t| <= i < |line| ==> line[i] == line[|t|..][i - |t|];
      }
    }
    assert |t| >= 3 ==> t[0] == line[0] && t[1] == line[1] && t[2] == line[2];
  }

  /** `lines` are the lines of the text from `pos` on, as the scan reads them. */
  predicate LinesAt(text: string, pos: nat, lines: seq<string>)
    decreases |lines|
  {
    pos <= |text|
    && (lines == [] || (pos < |text| && lines[0] == FirstLine(text[pos..]) && LinesAt(text, pos + |lines[0]|, lines[1..])))
  }

  function Length(lines: seq<string>): nat {
    if lines == [] then 0 else |lines[0]| + Length(lines[1..])
  }

  lemma {:induction false} LinesInText(text: string, pos: nat, lines: seq<string>)
    requires LinesAt(text, pos, lines)
    ensures pos + Length(lines) <= |text|
    decreases |lines|
  {
    if lines != [] {
      LinesInText(text, pos + |lines[0]|, lines[1..]);
    }
  }

  /** Inside a fence, and up to the closing line, the scan starts no new paragraph. */
  lemma {:induction false} FenceGoesOn(text: string, s: Scan, lines: seq<string>)
    requires InText(text, s) && s.inFence && lines != [] && LinesAt(text, s.pos, lines)
    requires Fences(Last(lines)) && forall k :: 0 <= k < |lines| - 1 ==> !Fences(lines[k])
    ensures s.pos + Length(lines) <= |text|
    ensures ScanAll(text, s) == ScanAll(text, Scan(s.out, s.start, s.pos + Length(lines), false))
    decreases |lines|
  {
    hide TrimEnd, TrimNewlines, FirstLine, ScanAll, Blank, IsFence, Fences;
    LinesInText(text, s.pos, lines);
    FenceMeans(lines[0]);
    ScanNext(text, s);
    var t := ScanLine(text, s);
    if |lines| == 1 {
      NewlinesAreBlank(lines[0]);
      assert lines[1..] == [];
      assert Length(lines) == |lines[0]| + Length(lines[1..]);
    } else {
      assert t == Scan(s.out, s.start, s.pos + |lines[0]|, true);
      assert Last(lines[1..]) == Last(lines);
      FenceGoesOn(text, t, lines[1..]);
    }
  }

  lemma FenceIsRead(text: string, s: Scan, lines: seq<string>)
    requires InText(text, s) && !s.inFence && LinesAt(text, s.pos, lines) && FencedBlock(lines)
    ensures s.pos + Length(lines) <= |text|
    ensures ScanAll(text, s) == ScanAll(text, Scan(s.out, s.start, s.pos + Length(lines), false))
  {
    hide TrimEnd, TrimNewlines, FirstLine, ScanAll, Blank, IsFence, Fences;
    LinesInText(text, s.pos, lines);
    NewlinesAreBlank(lines[0]);
    FenceMeans(lines[0]);
    var t := ScanLine(text, s);
    assert t == Scan(s.out, s.start, s.pos + |lines[0]|, true);
    ScanNext(text, s);
    assert Last(lines[1..]) == Last(lines);
    FenceGoesOn(text, t, lines[1..]);
  }

  lemma ScanNext(text: string, s: Scan)
    requires InText(text, s) && s.pos < |text|
    ensures ScanAll(text, s) == ScanAll(text, ScanLine(text, s))
  {
    hide ScanLine;
  }

  /** The scan over some lines. */
  function ScanOver(text: string, s: Scan, lines: seq<string>): (t: Scan)
    requires InText(text, s) && LinesAt(text, s.pos, lines)
    ensures InText(text, t)
    decreases |lines|
  {
    if lines == [] then s else ScanOver(text, ScanLine(text, s), lines[1..])
  }

  /** Whether a fenced block is open after these lines. */
  function OpenAfter(lines: seq<string>, inFence: bool): bool
    decreases |lines|
  {
    if lines == [] then inFence else OpenAfter(lines[1..], if Fences(lines[0]) then !inFence else inFence)
  }

  lemma {:induction false} ScanOverKeeps(text: string, s: Scan, lines: seq<string>, more: seq<string>)
    requires InText(text, s) && LinesAt(text, s.pos, lines + more)
    ensures LinesAt(text, s.pos, lines)
    ensures var t := ScanOver(text, s, lines);
            && t.pos == s.pos + Length(lines) && t.inFence == OpenAfter(lines, s.inFence)
            && ScanAll(text, s) == ScanAll(text, t) && LinesAt(text, t.pos, more)
    decreases |lines|
  {
    hide TrimEnd, TrimNewlines, FirstLine, IsFence, Fences;
    if lines == [] {
      assert lines + more == more;
    } else {
      assert (lines + more)[1..] == lines[1..] + more;
      FenceMeans(lines[0]);
      ScanOverKeeps(text, ScanLine(text, s), lines[1..], more);
    }
  }

  lemma {:induction false} FoundIsKept(text: string, s: Scan)
    requires InText(text, s)
    ensures s.out <= ScanAll(text, s)
    decreases |text| - s.pos
  {
    hide TrimEnd, TrimNewlines, FirstLine, Separates, FenceAfter;
    if s.pos < |text| {
      FoundIsKept(text, ScanLine(text, s));
      assert s.out <= ScanLine(text, s).out;
    }
  }

  lemma TrimKeeps(s: string, i: nat)
    requires i < |s| && !IsSpace(s[i])
    ensures i < |TrimEnd(s)|
  {
    hide TrimEnd;
    var t := TrimEnd(s);
    forall j | |t| <= j < |s| ensures IsSpace(s[j]) {
      assert s[j] == s[|t|..][j - |t|];
    }
  }

  /** What is left of a blank end reaches at least as far as any character that shows. */
  lemma BlankFrom(s: string, u: nat, t: string)
    requires t <= s && u <= |s| && Blank(s[u..]) && (t != [] ==> !IsSpace(Last(t)))
    ensures |t| <= u
  {
    forall j | u <= j < |s| ensures IsSpace(s[j]) {
      assert s[j] == s[u..][j - u];
    }
    assert t != [] ==> Last(t) == s[|t| - 1];
  }

  lemma TrimEndIs(s: string, t: string)
    requires t <= s && Blank(s[|t|..]) && (t != [] ==> !IsSpace(Last(t)))
    ensures TrimEnd(s) == t
  {
    hide TrimEnd, Blank;
    BlankFrom(s, |t|, TrimEnd(s));
    BlankFrom(s, |TrimEnd(s)|, t);
  }

  /** What is trimmed of two parts: all of a blank second one, or something of the second only. */
  lemma TrimSum(x: string, y: string)
    ensures TrimEnd(x + y) == if Blank(y) then TrimEnd(x) else x + TrimEnd(y)
  {
    hide TrimEnd;
    if Blank(y) {
      var u := TrimEnd(x);
      assert (x + y)[|u|..] == x[|u|..] + y;
      TrimEndIs(x + y, u);
    } else {
      var u := TrimEnd(y);
      TrimEndVisible(y);
      assert (x + y)[|x + u|..] == y[|u|..];
      TrimEndIs(x + y, x + u);
    }
  }

  /** A part of three lies inside them, up to trailing whitespace. */
  lemma TrimmedMiddle(x: string, y: string, z: string)
    ensures Within(TrimEnd(y), TrimEnd((x + y) + z))
  {
    hide TrimEnd, Blank, Within;
    var u := TrimEnd(y);
    TrimSum(x + y, z);
    TrimSum(x, y);
    TrimEndVisible(y);
    if !Blank(z) {
      assert y == u + y[|u|..];
      RegroupFour(x, u, y[|u|..], TrimEnd(z));
      WithinIs(x, u, y[|u|..] + TrimEnd(z));
    } else if !Blank(y) {
      assert (x + u) + [] == x + u;
      WithinIs(x, u, []);
    } else {
      var w := TrimEnd((x + y) + z);
      assert ([] + u) + w == w;
      WithinIs([], u, w);
    }
  }

  lemma WithinIs(before: string, part: string, after: string)
    ensures Within(part, (before + part) + after)
  {
  }

  lemma RegroupFour(a: string, b: string, c: string, d: string)
    ensures (a + (b + c)) + d == (a + b) + (c + d)
  {
  }

  /** A stretch of the paragraph begun lies inside the paragraph, up to trailing whitespace. */
  lemma TrimmedWithin(text: string, start: nat, a: nat, b: nat, pos: nat)
    requires start <= a <= b <= pos <= |text|
    ensures Within(TrimEnd(text[a..b]), TrimEnd(text[start..pos]))
  {
    hide TrimEnd, Within;
    TrimmedMiddle(text[start..a], text[a..b], text[b..pos]);
    assert text[start..pos] == (text[start..a] + text[a..b]) + text[b..pos];
  }

  ghost predicate InOneOf(part: string, wholes: seq<string>) {
    exists k :: 0 <= k < |wholes| && Within(part, wholes[k])
  }

  lemma {:induction false} BegunIsKept(text: string, s: Scan, a: nat, b: nat)
    requires InText(text, s) && s.start <= a < b <= s.pos && TrimEnd(text[a..b]) != []
    ensures InOneOf(TrimEnd(text[a..b]), ScanAll(text, s))
    decreases |text| - s.pos
  {
    hide TrimEnd, TrimNewlines, FirstLine, Separates, FenceAfter, Within;
    TrimmedWithin(text, s.start, a, b, s.pos);
    if s.pos < |text| {
      var t := ScanLine(text, s);
      if t.start == s.start {
        BegunIsKept(text, t, a, b);
      } else {
        FoundIsKept(text, t);
        assert ScanAll(text, t)[|s.out|] == t.out[|s.out|] == TrimEnd(text[s.start..s.pos]);
      }
    } else {
      PartNotEmpty(TrimEnd(text[a..b]), TrimEnd(text[s.start..s.pos]));
      assert ScanAll(text, s)[|s.out|] == TrimEnd(text[s.start..s.pos]);
    }
  }

  lemma PartNotEmpty(part: string, whole: string)
    requires Within(part, whole) && part != []
    ensures whole != []
  {
  }

  /** A fenced block stays whole: whatever comes before it, if its opening line opens a fence
      there, the block lies inside one paragraph. */
  lemma FencedBlockStaysWhole(text: string, head: seq<string>, block: seq<string>)
    requires LinesAt(text, 0, head + block) && FencedBlock(block) && !OpenAfter(head, false)
    ensures var a, b := Length(head), Length(head) + Length(block);
            b <= |text| && InOneOf(TrimEnd(text[a..b]), ParagraphsOf(text))
  {
    hide TrimEnd, Within, ScanAll, ScanLine, ScanOver, LinesAt, Length, OpenAfter, FencedBlock;
    var s := Scan([], 0, 0, false);
    ScanOverKeeps(text, s, head, block);
    var t := ScanOver(text, s, head);
    FenceIsRead(text, t, block);
    var a, b := Length(head), Length(head) + Length(block);
    BlockNotBlank(text, a, block);
    BegunIsKept(text, Scan(t.out, t.start, b, false), a, b);
  }

  lemma BlockNotBlank(text: string, a: nat, block: seq<string>)
    requires LinesAt(text, a, block) && FencedBlock(block) && a + Length(block) <= |text|
    ensures Length(block) > 0 && TrimEnd(text[a..a + Length(block)]) != []
  {
    hide TrimNewlines, FirstLine;
    var part := text[a..a + Length(block)];
    NewlinesAreBlank(block[0]);
    var i :| 0 <= i < |block[0]| && !IsSpace(block[0][i]);
    assert part[i] == text[a..][i] == block[0][i];
    TrimEndVisible(part);
  }
}
