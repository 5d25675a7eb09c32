/**
  Messages as Claude Code means them, their form on a line (crates/silta-session/src/stream.rs reads
  it), and what the journal says of each: how many blocks of which kind with how many bytes, which
  tools, how many failures, and whether a person wrote it.
 */
module JournalMessages {
  import opened Prelude
  import Text
  import opened Journal

  datatype Answer = Plain(text: string) | Pieces(texts: seq<string>)

  datatype Block =
    | Said(text: string)
    | Called(tool: string, input: Json)
    | Came(answer: Answer, failed: bool)
    | Thought(thought: string)

  datatype Usage = Usage(input: u64, cacheRead: u64, cacheCreated: u64, output: u64)

  datatype Message = Message(
    blocks: seq<Block>,
    model: Option<string>,
    stop: Option<string>,
    usage: Option<Usage>,
    parent: Option<string>,
    origin: Option<string>)

  // ------------------------------------------------------------------------------------
  // The form on a line

  function TextJson(text: string): Json {
    Object(map["type" := String("text"), "text" := String(text)])
  }

  function AnswerJson(answer: Answer): Json {
    match answer
    case Plain(text) => String(text)
    case Pieces(texts) => Array(seq(|texts|, i requires 0 <= i < |texts| => TextJson(texts[i])))
  }

  function BlockJson(block: Block): Json {
    match block
    case Said(text) => TextJson(text)
    case Called(tool, input) => Object(map["type" := String("tool_use"), "name" := String(tool), "input" := input])
    case Came(answer, failed) =>
      Object(map["type" := String("tool_result"), "content" := AnswerJson(answer), "is_error" := Bool(failed)])
    case Thought(thought) => Object(map["type" := String("thinking"), "thinking" := String(thought)])
  }

  function BlocksJson(blocks: seq<Block>): seq<Json> {
    if blocks == [] then [] else BlocksJson(Init(blocks)) + [BlockJson(Last(blocks))]
  }

  function UsageJson(usage: Usage): Json {
    Object(map["input_tokens" := Number(Some(usage.input)), "output_tokens" := Number(Some(usage.output)),
               "cache_read_input_tokens" := Number(Some(usage.cacheRead)),
               "cache_creation_input_tokens" := Number(Some(usage.cacheCreated))])
  }

  /** A field that may be missing. */
  function Field(key: string, value: Option<Json>): map<string, Json> {
    if value.Some? then map[key := value.value] else map[]
  }

  function Stringed(s: Option<string>): Option<Json> {
    if s.Some? then Some(String(s.value)) else None
  }

  function Fields(m: Message): map<string, Json> {
    map["content" := Array(BlocksJson(m.blocks))]
    + Field("model", Stringed(m.model)) + Field("stop_reason", Stringed(m.stop))
    + Field("usage", if m.usage.Some? then Some(UsageJson(m.usage.value)) else None)
  }

  function LineJson(m: Message): Json {
    Object(map["message" := Object(Fields(m)), "parent_tool_use_id" := if m.parent.Some? then String(m.parent.value) else Null]
           + Field("origin", if m.origin.Some? then Some(Object(map["kind" := String(m.origin.value)])) else None))
  }

  // ------------------------------------------------------------------------------------
  // What is to be told

  /** The bytes of some texts together. */
  function BytesOf(texts: seq<string>): nat {
    if texts == [] then 0 else BytesOf(Init(texts)) + Text.Bytes(Last(texts))
  }

  /** The texts of a block: what was said, or what a tool answered. */
  function TextsOf(block: Block): seq<string> {
    match block
    case Said(text) => [text]
    case Came(Plain(text), _) => [text]
    case Came(Pieces(texts), _) => texts
    case _ => []
  }

  function AllTexts(blocks: seq<Block>): seq<string> {
    if blocks == [] then [] else AllTexts(Init(blocks)) + TextsOf(Last(blocks))
  }

  /** How many blocks are of a kind. */
  function HowMany(blocks: seq<Block>, p: Block -> bool): nat {
    if blocks == [] then 0 else HowMany(Init(blocks), p) + if p(Last(blocks)) then 1 else 0
  }

  function ToolsCalled(blocks: seq<Block>): seq<string> {
    if blocks == [] then [] else ToolsCalled(Init(blocks)) + (if Last(blocks).Called? then [Last(blocks).tool] else [])
  }

  function Meant(blocks: seq<Block>): Tally {
    Tally(HowMany(blocks, (b: Block) => b.Said?), BytesOf(AllTexts(blocks)), ToolsCalled(blocks),
          HowMany(blocks, (b: Block) => b.Came?), HowMany(blocks, (b: Block) => b.Came? && b.failed),
          HowMany(blocks, (b: Block) => b.Thought?))
  }

  // ------------------------------------------------------------------------------------

  lemma {:induction false} BytesSum(a: seq<string>, b: seq<string>)
    ensures BytesOf(a + b) == BytesOf(a) + BytesOf(b)
  {
    if b == [] {
      assert a + b == a;
    } else {
      BytesSum(a, Init(b));
      assert Init(a + b) == a + Init(b) && Last(a + b) == Last(b);
    }
  }

  lemma TextIsRead(text: string)
    ensures AsStr(Get(Some(TextJson(text)), "text")) == Some(text)
  {
  }

  lemma {:induction false} ItemsAreRead(texts: seq<string>, items: seq<Json>)
    requires |items| == |texts| && forall i :: 0 <= i < |texts| ==> items[i] == TextJson(texts[i])
    ensures ItemBytes(items) == BytesOf(texts)
  {
    hide TextJson, AsStr, Get;
    if texts != [] {
      ItemsAreRead(Init(texts), Init(items));
      TextIsRead(Last(texts));
    }
  }

  lemma OneBytes(text: string)
    ensures BytesOf([text]) == Text.Bytes(text) && BytesOf([]) == 0
  {
    assert Init([text]) == [];
  }

  /** What the journal reads of one block. */
  lemma BlockIsRead(b: Block)
    ensures KindOf(BlockJson(b)) == match b { case Said(_) => TextBlock case Called(_, _) => ToolUse case Came(_, _) => ToolResult case Thought(_) => Other }
    ensures b.Called? ==> ToolName(BlockJson(b)) == b.tool
    ensures b.Came? ==> (Failed(BlockJson(b)) <==> b.failed)
    ensures BlockBytes(BlockJson(b)) == BytesOf(TextsOf(b))
  {
    OneBytes(if b.Said? then b.text else if b.Came? && b.answer.Plain? then b.answer.text else "");
    if b.Came? && b.answer.Pieces? {
      ItemsAreRead(b.answer.texts, AnswerJson(b.answer).items);
    }
    hide ItemBytes, BytesOf, Text.Bytes;
  }

  lemma MeantMore(blocks: seq<Block>, b: Block)
    requires blocks != [] && Last(blocks) == b
    ensures Meant(blocks) == Counted(Meant(Init(blocks)), BlockJson(b))
  {
    BlockIsRead(b);
    BytesSum(AllTexts(Init(blocks)), TextsOf(b));
    hide BlockJson, KindOf, BlockBytes, ToolName, Failed, BytesOf;
  }

  lemma MeantNothing()
    ensures Meant([]) == Tally(0, 0, [], 0, 0, 0)
  {
  }

  /** What is counted of a message is what was meant by it. */
  lemma {:induction false} CountsWhatIsMeant(blocks: seq<Block>)
    ensures TallyOf(Some(Array(BlocksJson(blocks)))) == Meant(blocks)
  {
    hide TallyOf, Meant, Counted, BlockJson;
    if blocks == [] {
      NoBlocks();
      MeantNothing();
    } else {
      CountsWhatIsMeant(Init(blocks));
      TallyStep(BlocksJson(Init(blocks)), BlockJson(Last(blocks)));
      MeantMore(blocks, Last(blocks));
    }
  }

  lemma FieldIsRead(rest: map<string, Json>, key: string, value: Option<Json>, other: string)
    requires key !in rest
    ensures Get(Some(Object(rest + Field(key, value))), key) == value
    ensures other != key ==> Get(Some(Object(rest + Field(key, value))), other) == Get(Some(Object(rest)), other)
  {
  }

  lemma StringIsRead(value: Option<string>)
    ensures AsStr(Stringed(value)) == value
  {
  }

  lemma FieldsAreRead(m: Message)
    ensures var message := Some(Object(Fields(m)));
            && Get(message, "content") == Some(Array(BlocksJson(m.blocks)))
            && Get(message, "model") == Stringed(m.model) && Get(message, "stop_reason") == Stringed(m.stop)
            && Get(message, "usage") == if m.usage.Some? then Some(UsageJson(m.usage.value)) else None
  {
    hide BlocksJson, UsageJson, Stringed;
    var content := map["content" := Array(BlocksJson(m.blocks))];
    var model := content + Field("model", Stringed(m.model));
    var stop := model + Field("stop_reason", Stringed(m.stop));
    var usage := if m.usage.Some? then Some(UsageJson(m.usage.value)) else None;
    FieldIsRead(content, "model", Stringed(m.model), "content");
    FieldIsRead(model, "stop_reason", Stringed(m.stop), "content");
    FieldIsRead(model, "stop_reason", Stringed(m.stop), "model");
    FieldIsRead(stop, "usage", usage, "content");
    FieldIsRead(stop, "usage", usage, "model");
    FieldIsRead(stop, "usage", usage, "stop_reason");
  }

  lemma LineIsRead(m: Message)
    ensures MessageOf(LineJson(m)) == Some(Object(Fields(m)))
    ensures ContentOf(LineJson(m)) == Some(Array(BlocksJson(m.blocks)))
    ensures AsStr(Get(MessageOf(LineJson(m)), "model")) == m.model
    ensures AsStr(Get(MessageOf(LineJson(m)), "stop_reason")) == m.stop
    ensures Get(MessageOf(LineJson(m)), "usage") == if m.usage.Some? then Some(UsageJson(m.usage.value)) else None
    ensures Subagent(LineJson(m)) <==> m.parent.Some?
    ensures ChannelOrigin(LineJson(m)) <==> m.origin == Some("channel")
  {
    FieldsAreRead(m);
    StringIsRead(m.model);
    StringIsRead(m.stop);
    hide BlocksJson, UsageJson, Fields, Stringed;
  }

  /** The size of a prompt, as far as a `u64` goes: what went in, read from the cache or not. */
  lemma PromptIsRead(m: Message)
    ensures ContextOf(LineJson(m)) == if m.usage.None? then None
              else Some((m.usage.value.input + m.usage.value.cacheRead + m.usage.value.cacheCreated) % (U64_MAX + 1))
  {
    LineIsRead(m);
    hide LineJson;
  }

  /** The first thing said. */
  function FirstSaid(blocks: seq<Block>): Option<string> {
    if blocks == [] then None else if blocks[0].Said? then Some(blocks[0].text) else FirstSaid(blocks[1..])
  }

  lemma {:induction false} BlocksInOrder(blocks: seq<Block>)
    requires blocks != []
    ensures BlocksJson(blocks) == [BlockJson(blocks[0])] + BlocksJson(blocks[1..])
  {
    hide BlockJson;
    if |blocks| == 1 {
      assert Init(blocks) == [] == blocks[1..];
    } else {
      BlocksInOrder(Init(blocks));
      assert Init(blocks)[1..] == Init(blocks[1..]) && Init(blocks)[0] == blocks[0] && Last(blocks[1..]) == Last(blocks);
    }
  }

  lemma TextFieldIsRead(b: Block)
    ensures AsStr(Get(Some(BlockJson(b)), "text")) == if b.Said? then Some(b.text) else None
  {
    hide AnswerJson;
  }

  lemma {:induction false} FirstIsRead(blocks: seq<Block>)
    ensures FirstText(BlocksJson(blocks)) == FirstSaid(blocks)
    decreases |blocks|
  {
    hide BlockJson, Get, AsStr, BlocksJson;
    if blocks == [] {
      assert BlocksJson([]) == [] by { NoneJson(); }
    } else {
      BlocksInOrder(blocks);
      TextFieldIsRead(blocks[0]);
      FirstIsRead(blocks[1..]);
      assert ([BlockJson(blocks[0])] + BlocksJson(blocks[1..]))[1..] == BlocksJson(blocks[1..]);
    }
  }

  lemma NoneJson()
    ensures BlocksJson([]) == []
  {
  }

  /** A message of a person: delivered through the channel, or its first text is wrapped in the tag. */
  predicate FromPerson(m: Message) {
    m.origin == Some("channel") || (FirstSaid(m.blocks).Some? && "<channel" <= TrimStart(FirstSaid(m.blocks).value))
  }

  lemma PersonIsRead(m: Message)
    ensures PersonOf(LineJson(m)) <==> FromPerson(m)
  {
    LineIsRead(m);
    FirstIsRead(m.blocks);
    hide LineJson, FirstSaid, FirstText, TrimStart, ContentOf, ChannelOrigin;
  }

  /** A part of the line under its label. */
  function Under(part: string, value: Option<string>): seq<string> {
    if value.Some? then [part + value.value] else []
  }

  /**
    The journal line of every message: who spoke, whether through the channel, what it holds, and for
    the main conversation of an assistant how large the prompt was.
   */
  lemma TellsWhatIsMeant(m: Message)
    ensures var told := TallyText(Meant(m.blocks)) + Under("model ", m.model) + Under("stop ", m.stop);
            var prompt := if m.usage.None? then None
                          else Some(Decimal((m.usage.value.input + m.usage.value.cacheRead + m.usage.value.cacheCreated) % (U64_MAX + 1)));
            && JournalLine(Assistant, LineJson(m)) == "assistant: " + Join(told + Under("context ", if m.parent.None? then prompt else None), ", ")
            && JournalLine(User, LineJson(m)) == "user: " + Join((if FromPerson(m) then ["channel"] else []) + told, ", ")
  {
    LineIsRead(m);
    CountsWhatIsMeant(m.blocks);
    PromptIsRead(m);
    PersonIsRead(m);
    hide LineJson, TallyText, Meant, FromPerson, ContextOf, Subagent, MessageOf, ContentOf, PersonOf, Join, Decimal, Get, AsStr, TallyOf;
    assert Parts(User, LineJson(m)) == TallyText(Meant(m.blocks)) + Under("model ", m.model) + Under("stop ", m.stop);
    assert [] + Parts(Assistant, LineJson(m)) == Parts(Assistant, LineJson(m));
  }

  // ------------------------------------------------------------------------------------
  // Lines as they are written

  lemma SmallNumbers()
    ensures Decimal(0) == "0" && Decimal(1) == "1" && Decimal(2) == "2" && Decimal(3) == "3" && Decimal(4) == "4" && Decimal(8) == "8"
  {
  }

  lemma TwoJoined(a: string, b: string, separator: string)
    ensures Join([a, b], separator) == a + separator + b
  {
    assert Init([a, b]) == [a];
  }

  /** The parts of a line that are counted: texts, tools and others. */
  lemma CountsAreWritten()
    ensures TallyText(Tally(1, 8, ["Read", "Bash"], 0, 0, 3)) == ["1 text (8 bytes)", "tool_use Read,Bash", "3 other"]
  {
    SmallNumbers();
    hide Decimal, Join;
    TwoJoined("Read", "Bash", ",");
    assert "1" + " text (" + "8" + " bytes)" == "1 text (8 bytes)";
    assert "Read" + "," + "Bash" == "Read,Bash" && "tool_use " + "Read,Bash" == "tool_use Read,Bash";
    assert "3" + " other" == "3 other";
  }

  /** And results, with their failures if there are any. */
  lemma FailuresAreWritten()
    ensures TallyText(Tally(0, 8, [], 2, 1, 0)) == ["2 tool_result (8 bytes, 1 failed)"]
  {
    SmallNumbers();
    hide Decimal, Join;
    assert "2" + " tool_result (" + "8" + " bytes" + (", " + "1" + " failed") + ")" == "2 tool_result (8 bytes, 1 failed)";
  }

  lemma ResultsAreWritten()
    ensures TallyText(Tally(0, 0, [], 4, 0, 0)) == ["4 tool_result (0 bytes)"] && TallyText(Tally(0, 0, [], 0, 0, 0)) == []
  {
    SmallNumbers();
    hide Decimal, Join;
    assert "4" + " tool_result (" + "0" + " bytes" + "" + ")" == "4 tool_result (0 bytes)";
  }
}
