/**
  The journal line of a user or assistant message (crates/silta-session/src/stream.rs): what it
  is computed from, and that it tells nothing else about the conversation.
 */
module Journal {
  import opened Prelude
  import Text

  /** A parsed line. A number is known by its value as a `u64`, if it has one. */
  datatype Json =
    | Null
    | Bool(flag: bool)
    | Number(value: Option<u64>)
    | String(text: string)
    | Array(items: seq<Json>)
    | Object(fields: map<string, Json>)

  datatype Role = Assistant | User

  function Get(v: Option<Json>, key: string): Option<Json> {
    if v.Some? && v.value.Object? && key in v.value.fields then Some(v.value.fields[key]) else None
  }

  function AsStr(v: Option<Json>): Option<string> {
    if v.Some? && v.value.String? then Some(v.value.text) else None
  }

  function AsU64(v: Option<Json>): u64 {
    if v.Some? && v.value.Number? && v.value.value.Some? then v.value.value.value else 0
  }

  function ByteLength(s: Option<string>): nat {
    if s.Some? then Text.Bytes(s.value) else 0
  }

  function MessageOf(line: Json): Option<Json> {
    Get(Some(line), "message")
  }

  function ContentOf(line: Json): Option<Json> {
    Get(MessageOf(line), "content")
  }

  predicate ChannelOrigin(line: Json) {
    AsStr(Get(Get(Some(line), "origin"), "kind")) == Some("channel")
  }

  function TrimStart(s: string): string {
    if s != [] && Text.IsSpace(s[0]) then TrimStart(s[1..]) else s
  }

  predicate StartsWithTag(s: string) {
    "<channel" <= TrimStart(s)
  }

  /** The text of the first block that has one. */
  function FirstText(blocks: seq<Json>): Option<string> {
    if blocks == [] then None else
    var text := AsStr(Get(Some(blocks[0]), "text"));
    if text.Some? then text else FirstText(blocks[1..])
  }

  predicate PersonOf(line: Json) {
    ChannelOrigin(line)
    || match ContentOf(line) {
      case Some(String(s)) => StartsWithTag(s)
      case Some(Array(blocks)) => FirstText(blocks).Some? && StartsWithTag(FirstText(blocks).value)
      case _ => false
    }
  }

  predicate Subagent(line: Json) {
    var parent := Get(Some(line), "parent_tool_use_id");
    parent.Some? && parent.value != Null
  }

  /** The size of the prompt; the sum wraps at 64 bits. */
  function ContextOf(line: Json): Option<nat> {
    var usage := Get(MessageOf(line), "usage");
    if usage.None? then None else
    Some((AsU64(Get(usage, "input_tokens")) + AsU64(Get(usage, "cache_read_input_tokens"))
          + AsU64(Get(usage, "cache_creation_input_tokens"))) % (U64_MAX + 1))
  }

  // ------------------------------------------------------------------------------------
  // Blocks

  datatype Kind = TextBlock | ToolUse | ToolResult | Other

  function KindOf(block: Json): Kind {
    match AsStr(Get(Some(block), "type"))
    case Some(t) => if t == "text" then TextBlock
                    else if t == "tool_use" then ToolUse
                    else if t == "tool_result" then ToolResult else Other
    case None => Other
  }

  function ToolName(block: Json): string {
    var name := AsStr(Get(Some(block), "name"));
    if name.Some? then name.value else "?"
  }

  predicate Failed(block: Json) {
    Get(Some(block), "is_error") == Some(Bool(true))
  }

  /** The bytes of the texts of a tool result. */
  function ItemBytes(items: seq<Json>): nat {
    if items == [] then 0 else ItemBytes(Init(items)) + ByteLength(AsStr(Get(Some(Last(items)), "text")))
  }

  function BlockBytes(block: Json): nat {
    match KindOf(block)
    case TextBlock => ByteLength(AsStr(Get(Some(block), "text")))
    case ToolResult =>
      (match Get(Some(block), "content")
       case Some(String(s)) => Text.Bytes(s)
       case Some(Array(items)) => ItemBytes(items)
       case _ => 0)
    case _ => 0
  }

  /** The blocks of a kind, in order. */
  function OfKind(blocks: seq<Json>, kind: Kind): seq<Json> {
    if blocks == [] then []
    else OfKind(Init(blocks), kind) + (if KindOf(Last(blocks)) == kind then [Last(blocks)] else [])
  }

  function TotalBytes(blocks: seq<Json>): nat {
    if blocks == [] then 0 else TotalBytes(Init(blocks)) + BlockBytes(Last(blocks))
  }

  function ToolNames(blocks: seq<Json>): seq<string> {
    var uses := OfKind(blocks, ToolUse);
    seq(|uses|, i requires 0 <= i < |uses| => ToolName(uses[i]))
  }

  function FailedAmong(blocks: seq<Json>): nat {
    if blocks == [] then 0 else FailedAmong(Init(blocks)) + (if Failed(Last(blocks)) then 1 else 0)
  }

  /** What the journal tells of a message's content. */
  datatype Tally = Tally(texts: nat, bytes: nat, tools: seq<string>, results: nat, errors: nat, other: nat)

  function TallyOf(content: Option<Json>): Tally {
    match content
    case Some(String(s)) => Tally(1, Text.Bytes(s), [], 0, 0, 0)
    case Some(Array(blocks)) =>
      Tally(|OfKind(blocks, TextBlock)|, TotalBytes(blocks), ToolNames(blocks),
            |OfKind(blocks, ToolResult)|, FailedAmong(OfKind(blocks, ToolResult)), |OfKind(blocks, Other)|)
    case _ => Tally(0, 0, [], 0, 0, 0)
  }

  // ------------------------------------------------------------------------------------
  // The line

  function Join(parts: seq<string>, separator: string): string {
    if parts == [] then []
    else if |parts| == 1 then parts[0]
    else Join(Init(parts), separator) + separator + Last(parts)
  }

  function TallyText(t: Tally): seq<string> {
    (if t.texts > 0 then [Decimal(t.texts) + " text (" + Decimal(t.bytes) + " bytes)"] else [])
    + (if t.tools != [] then ["tool_use " + Join(t.tools, ",")] else [])
    + (if t.results > 0
       then [Decimal(t.results) + " tool_result (" + Decimal(t.bytes) + " bytes"
             + (if t.errors > 0 then ", " + Decimal(t.errors) + " failed" else "") + ")"]
       else [])
    + (if t.other > 0 then [Decimal(t.other) + " other"] else [])
  }

  function Labelled(name: string, value: Option<string>): seq<string> {
    if value.Some? then [name + value.value] else []
  }

  /** The parts of the line but for the mark of a channel delivery. */
  function Parts(role: Role, line: Json): seq<string> {
    var context := if role.Assistant? && !Subagent(line) then ContextOf(line) else None;
    TallyText(TallyOf(ContentOf(line)))
    + Labelled("model ", AsStr(Get(MessageOf(line), "model")))
    + Labelled("stop ", AsStr(Get(MessageOf(line), "stop_reason")))
    + (if context.Some? then ["context " + Decimal(context.value)] else [])
  }

  function Heading(role: Role): string {
    if role.Assistant? then "assistant: " else "user: "
  }

  function JournalLine(role: Role, line: Json): string {
    var mark := if role.User? && PersonOf(line) then ["channel"] else [];
    Heading(role) + Join(mark + Parts(role, line), ", ")
  }

  // ------------------------------------------------------------------------------------
  // The reduction as the source does it

  lemma OfKindStep(blocks: seq<Json>, b: Json, kind: Kind)
    ensures OfKind(blocks + [b], kind) == OfKind(blocks, kind) + (if KindOf(b) == kind then [b] else [])
  {
    assert Init(blocks + [b]) == blocks;
  }

  /** How one block changes the tally. */
  function Counted(t: Tally, b: Json): Tally {
    match KindOf(b)
    case TextBlock => t.(texts := t.texts + 1, bytes := t.bytes + BlockBytes(b))
    case ToolUse => t.(tools := t.tools + [ToolName(b)])
    case ToolResult => t.(results := t.results + 1, bytes := t.bytes + BlockBytes(b),
                          errors := t.errors + if Failed(b) then 1 else 0)
    case Other => t.(other := t.other + 1)
  }

  lemma NamesStep(blocks: seq<Json>, b: Json)
    ensures ToolNames(blocks + [b]) == if KindOf(b) == ToolUse then ToolNames(blocks) + [ToolName(b)] else ToolNames(blocks)
  {
    hide KindOf, ToolName;
    OfKindStep(blocks, b, ToolUse);
  }

  lemma FailedStep(results: seq<Json>, b: Json)
    ensures FailedAmong(results + [b]) == FailedAmong(results) + if Failed(b) then 1 else 0
  {
    assert Init(results + [b]) == results;
  }

  lemma BytesStep(blocks: seq<Json>, b: Json)
    ensures TotalBytes(blocks + [b]) == TotalBytes(blocks) + BlockBytes(b)
    ensures KindOf(b).ToolUse? || KindOf(b).Other? ==> BlockBytes(b) == 0
  {
    assert Init(blocks + [b]) == blocks;
  }

  lemma TallyStep(blocks: seq<Json>, b: Json)
    ensures TallyOf(Some(Array(blocks + [b]))) == Counted(TallyOf(Some(Array(blocks))), b)
  {
    hide KindOf, Failed, ToolName, OfKind, TotalBytes, ToolNames, BlockBytes, FailedAmong;
    OfKindStep(blocks, b, TextBlock);
    OfKindStep(blocks, b, ToolResult);
    OfKindStep(blocks, b, Other);
    NamesStep(blocks, b);
    BytesStep(blocks, b);
    FailedStep(OfKind(blocks, ToolResult), b);
    assert OfKind(blocks, ToolResult) + [] == OfKind(blocks, ToolResult);
  }

  method ResultBytes(block: Json) returns (bytes: nat)
    requires KindOf(block) == ToolResult
    ensures bytes == BlockBytes(block)
  {
    match Get(Some(block), "content") {
      case Some(String(s)) => return Text.Bytes(s);
      case Some(Array(items)) =>
        bytes := 0;
        for k := 0 to |items|
          invariant bytes == ItemBytes(items[..k])
        {
          assert Init(items[..k + 1]) == items[..k];
          bytes := bytes + ByteLength(AsStr(Get(Some(items[k]), "text")));
        }
        assert items[..|items|] == items;
      case _ => return 0;
    }
  }

  method CountBlocks(blocks: seq<Json>) returns (t: Tally)
    ensures t == TallyOf(Some(Array(blocks)))
  {
    hide TallyOf, BlockBytes, KindOf, Failed, ToolName;
    t := Tally(0, 0, [], 0, 0, 0);
    NoBlocks();
    for k := 0 to |blocks|
      invariant t == TallyOf(Some(Array(blocks[..k])))
    {
      var block := blocks[k];
      assert blocks[..k + 1] == blocks[..k] + [block];
      TallyStep(blocks[..k], block);
      match KindOf(block) {
        case TextBlock =>
          TextBytes(block);
          t := t.(texts := t.texts + 1, bytes := t.bytes + ByteLength(AsStr(Get(Some(block), "text"))));
        case ToolUse =>
          t := t.(tools := t.tools + [ToolName(block)]);
        case ToolResult =>
          var bytes := ResultBytes(block);
          t := t.(results := t.results + 1, bytes := t.bytes + bytes);
          if Failed(block) {
            t := t.(errors := t.errors + 1);
          }
        case Other =>
          t := t.(other := t.other + 1);
      }
    }
    assert blocks[..|blocks|] == blocks;
  }

  lemma NoBlocks()
    ensures TallyOf(Some(Array([]))) == Tally(0, 0, [], 0, 0, 0)
  {
  }

  lemma TextBytes(block: Json)
    requires KindOf(block) == TextBlock
    ensures BlockBytes(block) == ByteLength(AsStr(Get(Some(block), "text")))
  {
  }

  method CountContent(content: Option<Json>) returns (t: Tally)
    ensures t == TallyOf(content)
  {
    t := Tally(0, 0, [], 0, 0, 0);
    match content {
      case Some(String(s)) =>
        t := t.(texts := t.texts + 1, bytes := t.bytes + Text.Bytes(s));
      case Some(Array(blocks)) =>
        t := CountBlocks(blocks);
      case _ =>
    }
  }

  method Summarize(role: Role, line: Json) returns (text: string)
    ensures text == JournalLine(role, line)
  {
    hide PersonOf, ContextOf, Subagent, Join, Decimal, TallyText, TallyOf, AsStr, Get, Heading;
    var t := CountContent(ContentOf(line));
    var parts := TallyText(t);
    var model := AsStr(Get(MessageOf(line), "model"));
    if model.Some? {
      parts := parts + ["model " + model.value];
    }
    var stop := AsStr(Get(MessageOf(line), "stop_reason"));
    if stop.Some? {
      parts := parts + ["stop " + stop.value];
    }
    if role == Assistant && !Subagent(line) {
      var context := ContextOf(line);
      if context.Some? {
        parts := parts + ["context " + Decimal(context.value)];
      }
    }
    assert parts == Parts(role, line);
    assert [] + parts == parts;
    if role == User && PersonOf(line) {
      parts := ["channel"] + parts;
    }
    text := Heading(role) + Join(parts, ", ");
  }

  // ------------------------------------------------------------------------------------
  // Non-interference

  /** Two blocks of one kind, with the same tool name, the same size and the same error flag. */
  predicate SameBlock(a: Json, b: Json) {
    && KindOf(a) == KindOf(b) && BlockBytes(a) == BlockBytes(b)
    && (KindOf(a).ToolUse? ==> ToolName(a) == ToolName(b))
    && (KindOf(a).ToolResult? ==> Failed(a) == Failed(b))
  }

  predicate SameBlocks(a: seq<Json>, b: seq<Json>) {
    |a| == |b| && forall i :: 0 <= i < |a| ==> SameBlock(a[i], b[i])
  }

  predicate SameContent(a: Option<Json>, b: Option<Json>) {
    match (a, b)
    case (Some(String(s)), Some(String(t))) => Text.Bytes(s) == Text.Bytes(t)
    case (Some(Array(x)), Some(Array(y))) => SameBlocks(x, y)
    case (_, _) => Neither(a) && Neither(b)
  }

  predicate Neither(a: Option<Json>) {
    a.None? || !(a.value.String? || a.value.Array?)
  }

  /** Two lines that look alike but for their texts and everything the journal does not name. */
  predicate SameOutline(role: Role, a: Json, b: Json) {
    && SameContent(ContentOf(a), ContentOf(b))
    && AsStr(Get(MessageOf(a), "model")) == AsStr(Get(MessageOf(b), "model"))
    && AsStr(Get(MessageOf(a), "stop_reason")) == AsStr(Get(MessageOf(b), "stop_reason"))
    && (role.Assistant? ==> Subagent(a) == Subagent(b) && (!Subagent(a) ==> ContextOf(a) == ContextOf(b)))
  }

  lemma {:induction false} SameTally(a: seq<Json>, b: seq<Json>)
    requires SameBlocks(a, b)
    ensures TallyOf(Some(Array(a))) == TallyOf(Some(Array(b)))
  {
    hide TallyOf, BlockBytes, KindOf, Failed, ToolName;
    if a == [] {
      assert a == b;
    } else {
      SameTally(Init(a), Init(b));
      TallyStep(Init(a), Last(a));
      TallyStep(Init(b), Last(b));
      assert a == Init(a) + [Last(a)] && b == Init(b) + [Last(b)];
    }
  }

  lemma SameParts(role: Role, a: Json, b: Json)
    requires SameOutline(role, a, b)
    ensures Parts(role, a) == Parts(role, b)
  {
    hide AsStr, Get, Subagent, ContextOf, TallyText, SameBlocks, ContentOf, MessageOf;
    var x, y := ContentOf(a), ContentOf(b);
    if x.Some? && x.value.Array? && y.Some? && y.value.Array? {
      SameTally(x.value.items, y.value.items);
    }
    assert TallyOf(x) == TallyOf(y);
  }

  lemma {:induction false} JoinFirst(first: string, parts: seq<string>, separator: string)
    ensures |Join([first] + parts, separator)|
            == |first| + if parts == [] then 0 else |separator| + |Join(parts, separator)|
  {
    if |parts| > 0 {
      assert Init([first] + parts) == [first] + Init(parts) && Last([first] + parts) == Last(parts);
      JoinFirst(first, Init(parts), separator);
    }
  }

  /**
    Two lines of one outline have the same journal line exactly if, for a user's line, they are
    the same as to being a delivery through the channel.
   */
  lemma NonInterference(role: Role, a: Json, b: Json)
    requires SameOutline(role, a, b)
    ensures JournalLine(role, a) == JournalLine(role, b) <==> (role.User? ==> PersonOf(a) == PersonOf(b))
  {
    hide PersonOf, SameOutline, Parts, Join, Heading;
    SameParts(role, a, b);
    var parts := Parts(role, a);
    JoinFirst("channel", parts, ", ");
    NothingJoined(", ");
    assert [] + parts == parts;
    if role.User? && PersonOf(a) != PersonOf(b) {
      assert |Join(["channel"] + parts, ", ")| != |Join(parts, ", ")|;
    }
  }

  lemma NothingJoined(separator: string)
    ensures Join([], separator) == []
  {
  }

  /** For a line whose origin is the channel, or an assistant's, no text at all matters. */
  lemma TextsNeverMatter(role: Role, a: Json, b: Json)
    requires SameOutline(role, a, b) && (role.User? ==> ChannelOrigin(a) && ChannelOrigin(b))
    ensures JournalLine(role, a) == JournalLine(role, b)
  {
    hide SameOutline, JournalLine, ChannelOrigin;
    NonInterference(role, a, b);
  }

  // ------------------------------------------------------------------------------------
  // Which part tells what

  lemma InSum<T>(a: seq<T>, b: seq<T>, x: T)
    ensures x in a + b <==> x in a || x in b
  {
  }

  lemma DecimalStarts(n: nat)
    ensures Decimal(n) != [] && '0' <= Decimal(n)[0] <= '9'
  {
  }

  lemma TallyStarts(t: Tally)
    ensures forall part :: part in TallyText(t) ==> part != [] && (part[0] == 't' || '0' <= part[0] <= '9')
  {
    DecimalStarts(t.texts);
    DecimalStarts(t.results);
    DecimalStarts(t.other);
  }

  lemma LabelledHas(name: string, value: Option<string>, x: string)
    requires name != []
    ensures name + x in Labelled(name, value) <==> value == Some(x)
    ensures forall part :: part in Labelled(name, value) ==> part != [] && part[0] == name[0]
  {
    if value.Some? && name + value.value == name + x {
      assert (name + value.value)[|name|..] == value.value && (name + x)[|name|..] == x;
    }
  }

  lemma {:induction false} DecimalInjective(a: nat, b: nat)
    requires Decimal(a) == Decimal(b)
    ensures a == b
  {
    var x, y := Decimal(a), Decimal(b);
    if a >= 10 && b >= 10 {
      assert x[..|x| - 1] == Decimal(a / 10) && y[..|y| - 1] == Decimal(b / 10);
      DecimalInjective(a / 10, b / 10);
      assert Last(x) == Digit(a % 10) && Last(y) == Digit(b % 10);
    } else {
      DecimalLength(a);
      DecimalLength(b);
    }
  }

  lemma DecimalLength(n: nat)
    ensures |Decimal(n)| == 1 <==> n < 10
    ensures n < 10 ==> Decimal(n) == [Digit(n)]
  {
    if n >= 10 {
      DecimalStarts(n / 10);
    }
  }

  /** The prompt size of an assistant's message of the main conversation. */
  function ContextShown(role: Role, line: Json): Option<nat> {
    if role.Assistant? && !Subagent(line) then ContextOf(line) else None
  }

  /**
    The line names the model, the reason for the stop and the size of the prompt under their own
    labels, and tells nothing under these labels that the message does not say.
   */
  lemma LabelsNameTheirFields(role: Role, line: Json, x: string, n: nat)
    ensures "model " + x in Parts(role, line) <==> Get(MessageOf(line), "model") == Some(String(x))
    ensures "stop " + x in Parts(role, line) <==> Get(MessageOf(line), "stop_reason") == Some(String(x))
    ensures "context " + Decimal(n) in Parts(role, line) <==> ContextShown(role, line) == Some(n)
  {
    var model, stop := AsStr(Get(MessageOf(line), "model")), AsStr(Get(MessageOf(line), "stop_reason"));
    var context := ContextShown(role, line);
    var tally := TallyText(TallyOf(ContentOf(line)));
    var a, b, c := Labelled("model ", model), Labelled("stop ", stop), ContextPart(context);
    assert Parts(role, line) == tally + a + b + c;
    TallyStarts(TallyOf(ContentOf(line)));
    LabelledHas("model ", model, x);
    LabelledHas("stop ", stop, x);
    ContextHas(context, n);
    StringIs(Get(MessageOf(line), "model"), x);
    StringIs(Get(MessageOf(line), "stop_reason"), x);
    hide TallyText, TallyOf, Decimal, Get, MessageOf, ContentOf, Labelled, ContextPart, ContextShown, Parts, AsStr;
    OfOneKind(tally, a, b, c, "model " + x);
    OfOneKind(tally, a, b, c, "stop " + x);
    OfOneKind(tally, a, b, c, "context " + Decimal(n));
  }

  function ContextPart(context: Option<nat>): seq<string> {
    if context.Some? then ["context " + Decimal(context.value)] else []
  }

  lemma StringIs(v: Option<Json>, x: string)
    ensures AsStr(v) == Some(x) <==> v == Some(String(x))
  {
  }

  lemma ContextHas(context: Option<nat>, n: nat)
    ensures "context " + Decimal(n) in ContextPart(context) <==> context == Some(n)
    ensures forall part :: part in ContextPart(context) ==> part != [] && part[0] == 'c'
  {
    if context.Some? && "context " + Decimal(context.value) == "context " + Decimal(n) {
      assert ("context " + Decimal(context.value))[8..] == Decimal(context.value) && ("context " + Decimal(n))[8..] == Decimal(n);
      DecimalInjective(context.value, n);
    }
  }

  /** Parts of different kinds begin with different characters. */
  lemma OfOneKind(tally: seq<string>, a: seq<string>, b: seq<string>, c: seq<string>, part: string)
    requires part != []
    requires forall p :: p in tally ==> p != [] && (p[0] == 't' || '0' <= p[0] <= '9')
    requires forall p :: p in a ==> p != [] && p[0] == 'm'
    requires forall p :: p in b ==> p != [] && p[0] == 's'
    requires forall p :: p in c ==> p != [] && p[0] == 'c'
    ensures part[0] == 'm' ==> (part in tally + a + b + c <==> part in a)
    ensures part[0] == 's' ==> (part in tally + a + b + c <==> part in b)
    ensures part[0] == 'c' ==> (part in tally + a + b + c <==> part in c)
  {
    InSum(tally + a + b, c, part);
    InSum(tally + a, b, part);
    InSum(tally, a, part);
  }
}
