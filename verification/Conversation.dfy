/** Messages as the session stores them and as the provider gets them, and the passes that
    sessionAgent makes over them before a request. */
module Conversation {
  import opened Common

  datatype Role = User | Assistant | System | Tool

  /** The part of a stored message; fields that no pass looks at are summed up in `rest`. */
  datatype StoredPart =
    | TextContent(text: string)
    | ReasoningContent(thinking: string, rest: string)
    | BinaryContent(path: string, mime: string, data: string)
    | ToolCall(id: string, name: string, input: string)
    | ToolResult(callID: string, content: string, data: string, mime: string, isError: bool)
    | OtherPart(rest: string)

  datatype Stored = Stored(role: Role, parts: seq<StoredPart>)

  datatype Output = TextOut(text: string) | ErrorOut(message: string) | MediaOut(data: string, mime: string)

  datatype Part =
    | TextPart(text: string)
    | ReasoningPart(text: string, rest: string)
    | CallPart(id: string, name: string, input: string)
    | ResultPart(callID: string, output: Output, options: string)
    | FilePart(name: string, data: string, mime: string)

  datatype Msg = Msg(role: Role, content: seq<Part>, options: string)

  datatype Attachment = Attachment(name: string, mime: string, content: string)

  /** Foreign functions: the text of a user message with parts, trimming, and base64. */
  datatype Codec = Codec(
    userText: Stored -> string, trim: string -> string,
    isValidBase64: string -> bool, decode: string -> Option<string>)

  const MEDIA_LOAD_FAILED := "[Image data could not be loaded]"
  const MEDIA_UNSUPPORTED := "[Image/media content not supported by this model]"
  const MEDIA_ATTACHED := "[Image/media content loaded - see attached file]"
  const INTERRUPTED :=
    "tool call was interrupted and did not produce a result, you may retry this call if the result is still needed"
  const REMINDER := "This is a reminder that your todo list is currently empty."
  const MEDIA_PROMPT := "Here is the media content from the tool result:"

  predicate IsText(mime: string) { "text/" <= mime }

  // -------------------------------------------------------------------- parts of a message

  function CallOf(p: StoredPart): seq<StoredPart> { if p.ToolCall? then [p] else [] }

  function ToolCalls(m: Stored): seq<StoredPart> { FlatMap(m.parts, CallOf) }

  function FirstText(parts: seq<StoredPart>): string {
    if parts == [] then "" else if parts[0].TextContent? then parts[0].text else FirstText(parts[1..])
  }

  function FirstReasoning(parts: seq<StoredPart>): (r: StoredPart)
    ensures r.ReasoningContent?
  {
    if parts == [] then ReasoningContent("", "")
    else if parts[0].ReasoningContent? then parts[0] else FirstReasoning(parts[1..])
  }

  // ----------------------------------------------------------------------- ToAIMessage

  function FileOf(p: StoredPart): seq<Part> {
    if p.BinaryContent? && !IsText(p.mime) then [FilePart(p.path, p.data, p.mime)] else []
  }

  function CallPartOf(p: StoredPart): seq<Part> {
    if p.ToolCall? then [CallPart(p.id, p.name, p.input)] else []
  }

  function OutputOf(c: Codec, p: StoredPart): Output
    requires p.ToolResult?
  {
    if p.isError then ErrorOut(p.content)
    else if p.data == "" then TextOut(p.content)
    else if c.isValidBase64(p.data) then MediaOut(p.data, p.mime)
    else TextOut(MEDIA_LOAD_FAILED)
  }

  function ResultPartFn(c: Codec): StoredPart -> seq<Part> {
    (p: StoredPart) => if p.ToolResult? then [ResultPart(p.callID, OutputOf(c, p), "")] else []
  }

  function TextIfAny(text: string): seq<Part> { if text == "" then [] else [TextPart(text)] }

  function ReasoningIfAny(p: StoredPart): seq<Part> {
    if p.ReasoningContent? && p.thinking != "" then [ReasoningPart(p.thinking, p.rest)] else []
  }

  /** The text of a user message; without parts there is none. */
  function UserText(c: Codec, m: Stored): string { if m.parts == [] then "" else c.userText(m) }

  /** Trimming white space; of no text it leaves none. */
  function Trimmed(c: Codec, text: string): string { if text == "" then "" else c.trim(text) }

  function ToAIMessage(c: Codec, m: Stored): seq<Msg> {
    match m.role
    case User => [Msg(User, TextIfAny(UserText(c, m)) + FlatMap(m.parts, FileOf), "")]
    case Assistant =>
      [Msg(Assistant, TextIfAny(Trimmed(c, FirstText(m.parts))) + ReasoningIfAny(FirstReasoning(m.parts))
                      + FlatMap(m.parts, CallPartOf), "")]
    case Tool => [Msg(Tool, FlatMap(m.parts, ResultPartFn(c)), "")]
    case System => []
  }

  // ---------------------------------------------------------------------- preparePrompt

  function KnownCallsFn(): Stored -> seq<string> {
    (m: Stored) => if m.role == Assistant then FlatMap(m.parts, StoredCallId) else []
  }
  function KnownResultsFn(): Stored -> seq<string> {
    (m: Stored) => if m.role == Tool then FlatMap(m.parts, StoredResultId) else []
  }
  function StoredCallId(p: StoredPart): seq<string> { if p.ToolCall? then [p.id] else [] }
  function StoredResultId(p: StoredPart): seq<string> { if p.ToolResult? then [p.callID] else [] }

  function SetOf<T>(xs: seq<T>): set<T> { set x | x in xs }

  /** Ids of tool calls in assistant messages, and of tool results in tool messages. */
  function KnownCalls(msgs: seq<Stored>): set<string> { SetOf(FlatMap(msgs, KnownCallsFn())) }
  function KnownResults(msgs: seq<Stored>): set<string> { SetOf(FlatMap(msgs, KnownResultsFn())) }

  function KnownPartFn(calls: set<string>): Part -> seq<Part> {
    (p: Part) => if p.ResultPart? && p.callID !in calls then [] else [p]
  }

  function IfAny(role: Role, content: seq<Part>, options: string): seq<Msg> {
    if content == [] then [] else [Msg(role, content, options)]
  }

  /** The message that filterOrphanedToolResults keeps, if any. */
  function WithoutOrphanedResults(c: Codec, m: Stored, calls: set<string>): seq<Msg> {
    var ai := ToAIMessage(c, m);
    if ai == [] then [] else IfAny(ai[0].role, FlatMap(ai[0].content, KnownPartFn(calls)), ai[0].options)
  }

  function SyntheticFn(results: set<string>): StoredPart -> seq<Part> {
    (p: StoredPart) => if p.ToolCall? && p.id !in results then [ResultPart(p.id, ErrorOut(INTERRUPTED), "")] else []
  }

  /** The message that syntheticToolResultsForOrphanedCalls adds, if any. */
  function SyntheticResults(m: Stored, results: set<string>): seq<Msg> {
    IfAny(Tool, FlatMap(m.parts, SyntheticFn(results)), "")
  }

  function NotFile(p: Part): seq<Part> { if p.FilePart? then [] else [p] }

  function WithoutFiles(m: Msg): Msg {
    if m.role == User then m.(content := FlatMap(m.content, NotFile)) else m
  }

  predicate Skipped(m: Stored) {
    || m.parts == []
    || (m.role == Assistant && ToolCalls(m) == [] && FirstText(m.parts) == "" && FirstReasoning(m.parts).thinking == "")
  }

  function WithoutFilesFn(): Msg -> seq<Msg> { (m: Msg) => [WithoutFiles(m)] }

  /** What one stored message contributes to the history. */
  function Converted(c: Codec, calls: set<string>, results: set<string>, images: bool, m: Stored): seq<Msg> {
    if Skipped(m) then []
    else if m.role == Tool then WithoutOrphanedResults(c, m, calls)
    else
      (if images then ToAIMessage(c, m) else FlatMap(ToAIMessage(c, m), WithoutFilesFn()))
      + if m.role == Assistant then SyntheticResults(m, results) else []
  }

  function ConvertedFn(c: Codec, calls: set<string>, results: set<string>, images: bool): Stored -> seq<Msg> {
    (m: Stored) => Converted(c, calls, results, images, m)
  }

  function Reminder(subAgent: bool): seq<Msg> {
    if subAgent then [] else [Msg(User, [TextPart(REMINDER)], "")]
  }

  /** The history that preparePrompt builds. */
  function History(c: Codec, msgs: seq<Stored>, subAgent: bool, images: bool): seq<Msg> {
    Reminder(subAgent) + FlatMap(msgs, ConvertedFn(c, KnownCalls(msgs), KnownResults(msgs), images))
  }

  function AttachedFn(images: bool): Attachment -> seq<Part> {
    (a: Attachment) => if IsText(a.mime) || !images then [] else [FilePart(a.name, a.content, a.mime)]
  }

  // -------------------------------------------------- workaroundProviderMediaLimitations

  /** The provider and the image support of the model in use. */
  datatype Model = Model(provider: string, images: bool)

  predicate SupportsMedia(model: Model) { model.provider in {"anthropic", "bedrock", "bedrock-europe"} }

  predicate IsMedia(p: Part) { p.ResultPart? && p.output.MediaOut? }

  /** What a part of a tool message becomes in the tool message. */
  function TextForm(c: Codec, images: bool, p: Part): Part {
    if !IsMedia(p) then p
    else if !images then p.(output := TextOut(MEDIA_UNSUPPORTED))
    else if c.decode(p.output.data).None? then p
    else p.(output := TextOut(MEDIA_ATTACHED))
  }

  /** The file that goes into the user message after it. */
  function MediaFile(c: Codec, images: bool, p: Part): seq<Part> {
    if IsMedia(p) && images && c.decode(p.output.data).Some?
    then [FilePart("tool-result-" + p.callID, c.decode(p.output.data).value, p.output.mime)] else []
  }

  function TextFormFn(c: Codec, images: bool): Part -> seq<Part> { (p: Part) => [TextForm(c, images, p)] }
  function MediaFileFn(c: Codec, images: bool): Part -> seq<Part> { (p: Part) => MediaFile(c, images, p) }

  function MediaMessage(files: seq<Part>): seq<Msg> {
    if files == [] then [] else [Msg(User, [TextPart(MEDIA_PROMPT)] + files, "")]
  }

  function Reworked(c: Codec, images: bool, m: Msg): seq<Msg> {
    if m.role != Tool then [m]
    else
      [Msg(Tool, FlatMap(m.content, TextFormFn(c, images)), "")]
      + MediaMessage(FlatMap(m.content, MediaFileFn(c, images)))
  }

  function ReworkedFn(c: Codec, images: bool): Msg -> seq<Msg> { (m: Msg) => Reworked(c, images, m) }

  function Workaround(c: Codec, model: Model, msgs: seq<Msg>): seq<Msg> {
    if SupportsMedia(model) then msgs else FlatMap(msgs, ReworkedFn(c, model.images))
  }

  // ------------------------------------------------------------------------- the loops

  method FilterFileParts(parts: seq<Part>) returns (filtered: seq<Part>)
    ensures filtered == FlatMap(parts, NotFile)
  {
    filtered := [];
    for i := 0 to |parts|
      invariant filtered == FlatMap(parts[..i], NotFile)
    {
      FlatMapNext(parts, i, NotFile);
      if !parts[i].FilePart? { filtered := filtered + [parts[i]]; }
    }
    assert parts[..|parts|] == parts;
  }

  method FilterOrphanedToolResults(c: Codec, m: Stored, known: set<string>) returns (kept: seq<Msg>)
    ensures kept == WithoutOrphanedResults(c, m, known)
  {
    var ai := ToAIMessage(c, m);
    if |ai| == 0 { return []; }
    var parts := ai[0].content;
    var valid: seq<Part> := [];
    for i := 0 to |parts|
      invariant valid == FlatMap(parts[..i], KnownPartFn(known))
    {
      FlatMapNext(parts, i, KnownPartFn(known));
      if !parts[i].ResultPart? || parts[i].callID in known { valid := valid + [parts[i]]; }
    }
    assert parts[..|parts|] == parts;
    if |valid| == 0 { return []; }
    return [ai[0].(content := valid)];
  }

  method SyntheticToolResultsForOrphanedCalls(m: Stored, known: set<string>) returns (added: seq<Msg>)
    ensures added == SyntheticResults(m, known)
  {
    var calls := ToolCalls(m);
    var synthetic: seq<Part> := [];
    for i := 0 to |calls|
      invariant synthetic == FlatMap(calls[..i], SyntheticFn(known))
    {
      FlatMapNext(calls, i, SyntheticFn(known));
      FlatMapIn(m.parts, CallOf, calls[i]);
      if calls[i].ToolCall? && calls[i].id !in known {
        synthetic := synthetic + [ResultPart(calls[i].id, ErrorOut(INTERRUPTED), "")];
      }
    }
    assert calls[..|calls|] == calls;
    SyntheticOverCalls(m, known);
    if |synthetic| == 0 { return []; }
    return [Msg(Tool, synthetic, "")];
  }

  lemma SyntheticOverCalls(m: Stored, known: set<string>)
    ensures FlatMap(ToolCalls(m), SyntheticFn(known)) == FlatMap(m.parts, SyntheticFn(known))
  {
    forall p | p in m.parts ensures SyntheticFn(known)(p) == FlatMap(CallOf(p), SyntheticFn(known)) {
      if p.ToolCall? { FlatMapOne(p, SyntheticFn(known)); }
    }
    FlatMapTwice(m.parts, CallOf, SyntheticFn(known), SyntheticFn(known));
  }

  method PreparePrompt(c: Codec, msgs: seq<Stored>, subAgent: bool, images: bool, attachments: seq<Attachment>)
    returns (history: seq<Msg>, files: seq<Part>)
    ensures history == History(c, msgs, subAgent, images)
    ensures files == FlatMap(attachments, AttachedFn(images))
  {
    hide Converted, KnownCalls, KnownResults, Reminder;
    history := Reminder(subAgent);
    var calls, results := CollectIds(msgs);
    var f := ConvertedFn(c, calls, results, images);
    for i := 0 to |msgs|
      invariant history == Reminder(subAgent) + FlatMap(msgs[..i], f)
    {
      FlatMapNext(msgs, i, f);
      var added := Convert(c, calls, results, images, msgs[i]);
      history := history + added;
    }
    assert msgs[..|msgs|] == msgs;
    files := AttachedFiles(attachments, images);
  }

  method AttachedFiles(attachments: seq<Attachment>, images: bool) returns (files: seq<Part>)
    ensures files == FlatMap(attachments, AttachedFn(images))
  {
    files := [];
    for i := 0 to |attachments|
      invariant files == FlatMap(attachments[..i], AttachedFn(images))
    {
      FlatMapNext(attachments, i, AttachedFn(images));
      var a := attachments[i];
      if IsText(a.mime) { continue; }
      if !images { continue; }
      files := files + [FilePart(a.name, a.content, a.mime)];
    }
    assert attachments[..|attachments|] == attachments;
  }

  method CollectIds(msgs: seq<Stored>) returns (calls: set<string>, results: set<string>)
    ensures calls == KnownCalls(msgs) && results == KnownResults(msgs)
  {
    calls, results := {}, {};
    for i := 0 to |msgs|
      invariant calls == KnownCalls(msgs[..i]) && results == KnownResults(msgs[..i])
    {
      FlatMapNext(msgs, i, KnownCallsFn());
      FlatMapNext(msgs, i, KnownResultsFn());
      if msgs[i].role == Assistant { calls := calls + SetOf(FlatMap(msgs[i].parts, StoredCallId)); }
      if msgs[i].role == Tool { results := results + SetOf(FlatMap(msgs[i].parts, StoredResultId)); }
    }
    assert msgs[..|msgs|] == msgs;
  }

  /** The body of preparePrompt's loop. */
  method Convert(c: Codec, calls: set<string>, results: set<string>, images: bool, m: Stored) returns (added: seq<Msg>)
    ensures added == Converted(c, calls, results, images, m)
  {
    if Skipped(m) { return []; }
    if m.role == Tool {
      added := FilterOrphanedToolResults(c, m, calls);
      return;
    }
    added := ToAIMessage(c, m);
    if !images {
      var ai := added;
      added := [];
      for i := 0 to |ai|
        invariant added == FlatMap(ai[..i], WithoutFilesFn())
      {
        FlatMapNext(ai, i, WithoutFilesFn());
        var msg := ai[i];
        if msg.role == User {
          var filtered := FilterFileParts(msg.content);
          msg := msg.(content := filtered);
        }
        added := added + [msg];
      }
      assert ai[..|ai|] == ai;
    }
    if m.role == Assistant {
      var synthetic := SyntheticToolResultsForOrphanedCalls(m, results);
      added := added + synthetic;
    }
  }

  method WorkaroundProviderMediaLimitations(c: Codec, msgs: seq<Msg>, model: Model) returns (converted: seq<Msg>)
    ensures converted == Workaround(c, model, msgs)
  {
    if SupportsMedia(model) { return msgs; }
    converted := [];
    for i := 0 to |msgs|
      invariant converted == FlatMap(msgs[..i], ReworkedFn(c, model.images))
    {
      FlatMapNext(msgs, i, ReworkedFn(c, model.images));
      if msgs[i].role != Tool {
        converted := converted + [msgs[i]];
        continue;
      }
      var text, files := SplitMedia(c, msgs[i].content, model.images);
      converted := converted + [Msg(Tool, text, "")];
      if |files| > 0 {
        converted := converted + [Msg(User, [TextPart(MEDIA_PROMPT)] + files, "")];
      }
    }
    assert msgs[..|msgs|] == msgs;
  }

  /** The inner loop, over the parts of one tool message. */
  method SplitMedia(c: Codec, parts: seq<Part>, images: bool) returns (text: seq<Part>, files: seq<Part>)
    ensures text == FlatMap(parts, TextFormFn(c, images)) && files == FlatMap(parts, MediaFileFn(c, images))
  {
    text, files := [], [];
    for i := 0 to |parts|
      invariant text == FlatMap(parts[..i], TextFormFn(c, images))
      invariant files == FlatMap(parts[..i], MediaFileFn(c, images))
    {
      FlatMapNext(parts, i, TextFormFn(c, images));
      FlatMapNext(parts, i, MediaFileFn(c, images));
      var p := parts[i];
      if !IsMedia(p) {
        text := text + [p];
      } else if !images {
        text := text + [p.(output := TextOut(MEDIA_UNSUPPORTED))];
      } else {
        var decoded := c.decode(p.output.data);
        if decoded.None? {
          text := text + [p];
        } else {
          files := files + [FilePart("tool-result-" + p.callID, decoded.value, p.output.mime)];
          text := text + [p.(output := TextOut(MEDIA_ATTACHED))];
        }
      }
    }
    assert parts[..|parts|] == parts;
  }
}
