/** What the history says: a one-pass reference for what preparePrompt builds in several passes,
    and what follows for the words, the messages and the files that the model gets. */
module HistoryTheorems {
  import opened Common
  import opened Conversation
  import opened ConversationTheorems

  // ------------------------------------------------------------------------ the reference

  function FirstOr<T>(xs: seq<T>, zero: T): T { if xs == [] then zero else xs[0] }

  /** The text of a stored message: its first text part. */
  function TextFn(): StoredPart -> seq<string> { (p: StoredPart) => if p.TextContent? then [p.text] else [] }
  function TextIn(m: Stored): string { FirstOr(FlatMap(m.parts, TextFn()), "") }

  /** Its reasoning: the first reasoning part. */
  function ThoughtFn(): StoredPart -> seq<(string, string)> {
    (p: StoredPart) => if p.ReasoningContent? then [(p.thinking, p.rest)] else []
  }
  function ThoughtIn(m: Stored): (string, string) { FirstOr(FlatMap(m.parts, ThoughtFn()), ("", "")) }

  /** The words that the model must see of a stored message. */
  function WordsOf(c: Codec, m: Stored): seq<Part> {
    match m.role
    case User => if m.parts == [] || c.userText(m) == "" then [] else [TextPart(c.userText(m))]
    case Assistant =>
      (if TextIn(m) == "" || c.trim(TextIn(m)) == "" then [] else [TextPart(c.trim(TextIn(m)))])
      + (if ThoughtIn(m).0 == "" then [] else [ReasoningPart(ThoughtIn(m).0, ThoughtIn(m).1)])
    case _ => []
  }

  /** The files of a user message, for a model that takes images. */
  function UserFileFn(images: bool): StoredPart -> seq<Part> {
    (p: StoredPart) =>
      if images && p.BinaryContent? && !("text/" <= p.mime) then [FilePart(p.path, p.data, p.mime)] else []
  }

  function CallFn(): StoredPart -> seq<Part> {
    (p: StoredPart) => if p.ToolCall? then [CallPart(p.id, p.name, p.input)] else []
  }

  /** The result of a call that some assistant message made. */
  function AnsweredFn(c: Codec, calls: set<string>): StoredPart -> seq<Part> {
    (p: StoredPart) =>
      if !p.ToolResult? || p.callID !in calls then []
      else
        var output :=
          if p.isError then ErrorOut(p.content)
          else if p.data == "" then TextOut(p.content)
          else if c.isValidBase64(p.data) then MediaOut(p.data, p.mime)
          else TextOut("[Image data could not be loaded]");
        [ResultPart(p.callID, output, "")]
  }

  const MISSING :=
    "tool call was interrupted and did not produce a result, you may retry this call if the result is still needed"

  /** The stand-in for a result that no tool message holds. */
  function MissingFn(results: set<string>): StoredPart -> seq<Part> {
    (p: StoredPart) =>
      if p.ToolCall? && p.id !in results then [ResultPart(p.id, ErrorOut(MISSING), "")] else []
  }

  /** An assistant message says nothing: no call, no text, no reasoning. */
  ghost predicate SaysNothing(m: Stored) {
    (forall p | p in m.parts :: !p.ToolCall?) && TextIn(m) == "" && ThoughtIn(m).0 == ""
  }

  /** What the model must get of one stored message. */
  ghost function Expected(c: Codec, calls: set<string>, results: set<string>, images: bool, m: Stored): seq<Msg> {
    match m.role
    case User =>
      if m.parts == [] then [] else [Msg(User, WordsOf(c, m) + FlatMap(m.parts, UserFileFn(images)), "")]
    case Assistant =>
      if SaysNothing(m) then []
      else
        var missing := FlatMap(m.parts, MissingFn(results));
        [Msg(Assistant, WordsOf(c, m) + FlatMap(m.parts, CallFn()), "")]
        + if missing == [] then [] else [Msg(Tool, missing, "")]
    case Tool =>
      var answers := FlatMap(m.parts, AnsweredFn(c, calls));
      if answers == [] then [] else [Msg(Tool, answers, "")]
    case System => []
  }

  ghost function ExpectedFn(c: Codec, calls: set<string>, results: set<string>, images: bool): Stored -> seq<Msg> {
    (m: Stored) => Expected(c, calls, results, images, m)
  }

  ghost function Opening(subAgent: bool): seq<Msg> {
    if subAgent then [] else [Msg(User, [TextPart("This is a reminder that your todo list is currently empty.")], "")]
  }

  // ------------------------------------------------------------------------------ the proof

  lemma FlatMapHead<T, U>(x: T, rest: seq<T>, f: T -> seq<U>)
    ensures FlatMap([x] + rest, f) == f(x) + FlatMap(rest, f)
  {
    FlatMapAppend([x], rest, f);
    FlatMapOne(x, f);
  }

  lemma {:induction false} FirstTextIs(parts: seq<StoredPart>)
    ensures FirstText(parts) == FirstOr(FlatMap(parts, TextFn()), "")
  {
    if parts == [] {
    } else {
      assert parts == [parts[0]] + parts[1..];
      FlatMapHead(parts[0], parts[1..], TextFn());
      FirstTextIs(parts[1..]);
    }
  }

  lemma {:induction false} FirstThoughtIs(parts: seq<StoredPart>)
    ensures var r := FirstReasoning(parts); (r.thinking, r.rest) == FirstOr(FlatMap(parts, ThoughtFn()), ("", ""))
  {
    if parts == [] {
    } else {
      assert parts == [parts[0]] + parts[1..];
      FlatMapHead(parts[0], parts[1..], ThoughtFn());
      FirstThoughtIs(parts[1..]);
    }
  }

  lemma NoCalls(m: Stored)
    ensures ToolCalls(m) == [] <==> forall p | p in m.parts :: !p.ToolCall?
  {
    if p :| p in m.parts && p.ToolCall? {
      FlatMapIn(m.parts, CallOf, p);
    } else {
      FlatMapNone(m.parts, CallOf);
    }
  }

  lemma SkippedMeans(m: Stored)
    ensures Skipped(m) <==> m.parts == [] || (m.role == Assistant && SaysNothing(m))
  {
    NoCalls(m);
    FirstTextIs(m.parts);
    FirstThoughtIs(m.parts);
  }

  lemma UserIs(c: Codec, calls: set<string>, results: set<string>, images: bool, m: Stored)
    requires m.role == User
    ensures Converted(c, calls, results, images, m) == Expected(c, calls, results, images, m)
  {
    SkippedMeans(m);
    hide Skipped, FlatMap, WithoutFiles, FileOf, UserFileFn;
    if m.parts != [] {
      if images {
        SameFiles(m.parts);
      } else {
        OneMessage(ToAIMessage(c, m)[0]);
        StrippedUser(c, m);
      }
    }
  }

  lemma SameFiles(parts: seq<StoredPart>)
    ensures FlatMap(parts, FileOf) == FlatMap(parts, UserFileFn(true))
  {
    FlatMapSame(parts, FileOf, UserFileFn(true));
  }

  lemma OneMessage(m: Msg)
    ensures FlatMap([m], WithoutFilesFn()) == [WithoutFiles(m)]
  {
    FlatMapOne(m, WithoutFilesFn());
  }

  lemma StrippedUser(c: Codec, m: Stored)
    requires m.role == User && m.parts != []
    ensures WithoutFiles(ToAIMessage(c, m)[0])
         == Msg(User, TextIfAny(c.userText(m)) + FlatMap(m.parts, UserFileFn(false)), "")
  {
    hide FlatMap, FileOf, UserFileFn, NotFile, TextIfAny;
    var text, files := TextIfAny(c.userText(m)), FlatMap(m.parts, FileOf);
    FlatMapAppend(text, files, NotFile);
    TextStays(c.userText(m));
    FilesGo(m.parts);
  }

  lemma TextStays(text: string)
    ensures FlatMap(TextIfAny(text), NotFile) == TextIfAny(text)
  {
    OneOrNone(TextIfAny(text), NotFile);
  }

  lemma FilesGo(parts: seq<StoredPart>)
    ensures FlatMap(FlatMap(parts, FileOf), NotFile) == FlatMap(parts, UserFileFn(false)) == []
  {
    hide FlatMap;
    forall p | p in FlatMap(parts, FileOf) ensures NotFile(p) == [] { FlatMapIn(parts, FileOf, p); }
    FlatMapNone(FlatMap(parts, FileOf), NotFile);
    FlatMapNone(parts, UserFileFn(false));
  }

  lemma AssistantIs(c: Codec, calls: set<string>, results: set<string>, images: bool, m: Stored)
    requires m.role == Assistant
    ensures Converted(c, calls, results, images, m) == Expected(c, calls, results, images, m)
  {
    SkippedMeans(m);
    FirstTextIs(m.parts);
    FirstThoughtIs(m.parts);
    UnstrippedAssistant(c, m);
    FlatMapSame(m.parts, CallPartOf, CallFn());
    FlatMapSame(m.parts, SyntheticFn(results), MissingFn(results));
  }

  lemma ToolIs(c: Codec, calls: set<string>, results: set<string>, images: bool, m: Stored)
    requires m.role == Tool
    ensures Converted(c, calls, results, images, m) == Expected(c, calls, results, images, m)
  {
    var known := KnownPartFn(calls);
    forall p | p in m.parts ensures AnsweredFn(c, calls)(p) == FlatMap(ResultPartFn(c)(p), known) {
      OneOrNone(ResultPartFn(c)(p), known);
    }
    FlatMapTwice(m.parts, ResultPartFn(c), known, AnsweredFn(c, calls));
  }

  /** The history is what it should be: for every message list, what preparePrompt builds by
      skipping, converting, stripping files, dropping orphaned results and adding missing ones is
      the opening and then, message by message, the reference. */
  lemma HistoryIs(c: Codec, msgs: seq<Stored>, subAgent: bool, images: bool)
    ensures History(c, msgs, subAgent, images)
         == Opening(subAgent) + FlatMap(msgs, ExpectedFn(c, KnownCalls(msgs), KnownResults(msgs), images))
  {
    hide Converted, Expected, KnownCalls, KnownResults;
    var calls, results := KnownCalls(msgs), KnownResults(msgs);
    forall m | m in msgs
      ensures ConvertedFn(c, calls, results, images)(m) == ExpectedFn(c, calls, results, images)(m) {
      MessageIs(c, calls, results, images, m);
    }
    FlatMapSame(msgs, ConvertedFn(c, calls, results, images), ExpectedFn(c, calls, results, images));
  }

  lemma MessageIs(c: Codec, calls: set<string>, results: set<string>, images: bool, m: Stored)
    ensures Converted(c, calls, results, images, m) == Expected(c, calls, results, images, m)
  {
    match m.role
    case User => UserIs(c, calls, results, images, m);
    case Assistant => AssistantIs(c, calls, results, images, m);
    case Tool => ToolIs(c, calls, results, images, m);
    case System =>
  }

  // ------------------------------------------------------------------------- what is said

  function WordIn(p: Part): seq<Part> { if p.TextPart? || p.ReasoningPart? then [p] else [] }

  ghost function WordsFn(c: Codec): Stored -> seq<Part> { (m: Stored) => WordsOf(c, m) }

  lemma WordsAreWords(c: Codec, m: Stored)
    ensures FlatMap(WordsOf(c, m), WordIn) == WordsOf(c, m)
  {
    var words := WordsOf(c, m);
    hide WordsOf;
    forall p | p in words ensures WordIn(p) == [p] { OnlyWords(c, m, p); }
    FlatMapOnes(words);
  }

  lemma OnlyWords(c: Codec, m: Stored, p: Part)
    requires p in WordsOf(c, m)
    ensures p.TextPart? || p.ReasoningPart?
  {
  }

  lemma {:induction false} FlatMapOnes(words: seq<Part>)
    requires forall p | p in words :: WordIn(p) == [p]
    ensures FlatMap(words, WordIn) == words
  {
    if words == [] {
    } else {
      FlatMapOnes(words[..|words| - 1]);
    }
  }

  lemma NoWordsIn(parts: seq<StoredPart>, f: StoredPart -> seq<Part>)
    requires forall p, q | p in parts && q in f(p) :: !q.TextPart? && !q.ReasoningPart?
    ensures FlatMap(FlatMap(parts, f), WordIn) == []
  {
    forall q | q in FlatMap(parts, f) ensures WordIn(q) == [] { FlatMapIn(parts, f, q); }
    FlatMapNone(FlatMap(parts, f), WordIn);
  }

  lemma WordsWith(c: Codec, m: Stored, f: StoredPart -> seq<Part>)
    requires forall p, q | p in m.parts && q in f(p) :: !q.TextPart? && !q.ReasoningPart?
    ensures FlatMap(WordsOf(c, m) + FlatMap(m.parts, f), WordIn) == WordsOf(c, m)
  {
    FlatMapAppend(WordsOf(c, m), FlatMap(m.parts, f), WordIn);
    WordsAreWords(c, m);
    NoWordsIn(m.parts, f);
  }

  lemma ExpectedWords(c: Codec, calls: set<string>, results: set<string>, images: bool, m: Stored)
    ensures Picked(Expected(c, calls, results, images, m), WordIn) == WordsOf(c, m)
  {
    match m.role
    case User =>
      if m.parts != [] {
        WordsWith(c, m, UserFileFn(images));
        PickedOne(Expected(c, calls, results, images, m)[0], WordIn);
      }
    case Assistant =>
      if !SaysNothing(m) { AssistantWords(c, calls, results, images, m); }
    case Tool =>
      NoWordsIn(m.parts, AnsweredFn(c, calls));
      var answers := FlatMap(m.parts, AnsweredFn(c, calls));
      if answers != [] { PickedOne(Msg(Tool, answers, ""), WordIn); }
    case System =>
  }

  lemma AssistantWords(c: Codec, calls: set<string>, results: set<string>, images: bool, m: Stored)
    requires m.role == Assistant && !SaysNothing(m)
    ensures Picked(Expected(c, calls, results, images, m), WordIn) == WordsOf(c, m)
  {
    hide WordsOf, SaysNothing, FlatMap;
    var said := Msg(Assistant, WordsOf(c, m) + FlatMap(m.parts, CallFn()), "");
    var missing := FlatMap(m.parts, MissingFn(results));
    WordsWith(c, m, CallFn());
    PickedOne(said, WordIn);
    if missing != [] {
      NoWordsIn(m.parts, MissingFn(results));
      PickedOne(Msg(Tool, missing, ""), WordIn);
      PickedAppend([said], [Msg(Tool, missing, "")], WordIn);
      assert WordsOf(c, m) + [] == WordsOf(c, m);
    } else {
      assert [said] + [] == [said];
    }
  }

  /** Nothing that was said is lost, changed or added: the text and reasoning in the history are
      the opening's and then, in order, every user's text and every assistant's text and
      reasoning. */
  lemma EveryWordIsThere(c: Codec, msgs: seq<Stored>, subAgent: bool, images: bool)
    ensures Picked(History(c, msgs, subAgent, images), WordIn)
         == Picked(Opening(subAgent), WordIn) + FlatMap(msgs, WordsFn(c))
  {
    hide Expected, KnownCalls, KnownResults, WordsOf;
    var f := ExpectedFn(c, KnownCalls(msgs), KnownResults(msgs), images);
    HistoryIs(c, msgs, subAgent, images);
    PickedAppend(Opening(subAgent), FlatMap(msgs, f), WordIn);
    forall m | m in msgs ensures WordsFn(c)(m) == FlatMap(f(m), InMsg(WordIn)) {
      ExpectedWords(c, KnownCalls(msgs), KnownResults(msgs), images, m);
    }
    FlatMapTwice(msgs, f, InMsg(WordIn), WordsFn(c));
  }

  // ------------------------------------------------------------------- which messages stand

  ghost function OfRoleFn(role: Role): Msg -> seq<Msg> { (m: Msg) => if m.role == role then [m] else [] }

  /** The one message that a stored user or assistant message becomes. */
  ghost function StandsFn(c: Codec, images: bool, role: Role): Stored -> seq<Msg> {
    (m: Stored) =>
      if m.role != role then []
      else if role == User && m.parts != [] then
        [Msg(User, WordsOf(c, m) + FlatMap(m.parts, UserFileFn(images)), "")]
      else if role == Assistant && !SaysNothing(m) then
        [Msg(Assistant, WordsOf(c, m) + FlatMap(m.parts, CallFn()), "")]
      else []
  }

  lemma StandsAlone(c: Codec, calls: set<string>, results: set<string>, images: bool, role: Role, m: Stored)
    requires role == User || role == Assistant
    ensures StandsFn(c, images, role)(m) == FlatMap(Expected(c, calls, results, images, m), OfRoleFn(role))
  {
    hide WordsOf, SaysNothing;
    var ms := Expected(c, calls, results, images, m);
    if |ms| <= 1 {
      OneOrNone(ms, OfRoleFn(role));
    } else {
      assert ms == [ms[0]] + [ms[1]];
      FlatMapHead(ms[0], [ms[1]], OfRoleFn(role));
      FlatMapOne(ms[1], OfRoleFn(role));
    }
  }

  /** Every user message with a part stands in the history exactly once, in order, after the
      opening; every assistant message does so too unless it says nothing; and the history has no
      other message of the user or the assistant. */
  lemma EveryMessageStands(c: Codec, msgs: seq<Stored>, subAgent: bool, images: bool)
    ensures FlatMap(History(c, msgs, subAgent, images), OfRoleFn(User))
         == Opening(subAgent) + FlatMap(msgs, StandsFn(c, images, User))
    ensures FlatMap(History(c, msgs, subAgent, images), OfRoleFn(Assistant))
         == FlatMap(msgs, StandsFn(c, images, Assistant))
  {
    RoleStands(c, msgs, subAgent, images, User);
    RoleStands(c, msgs, subAgent, images, Assistant);
    OneOrNone(Opening(subAgent), OfRoleFn(User));
    OneOrNone(Opening(subAgent), OfRoleFn(Assistant));
  }

  lemma RoleStands(c: Codec, msgs: seq<Stored>, subAgent: bool, images: bool, role: Role)
    requires role == User || role == Assistant
    ensures FlatMap(History(c, msgs, subAgent, images), OfRoleFn(role))
         == FlatMap(Opening(subAgent), OfRoleFn(role)) + FlatMap(msgs, StandsFn(c, images, role))
  {
    hide Expected, KnownCalls, KnownResults, History, WordsOf, SaysNothing;
    var calls, results := KnownCalls(msgs), KnownResults(msgs);
    var f := ExpectedFn(c, calls, results, images);
    HistoryIs(c, msgs, subAgent, images);
    FlatMapAppend(Opening(subAgent), FlatMap(msgs, f), OfRoleFn(role));
    forall m | m in msgs ensures StandsFn(c, images, role)(m) == FlatMap(f(m), OfRoleFn(role)) {
      StandsAlone(c, calls, results, images, role, m);
    }
    FlatMapTwice(msgs, f, OfRoleFn(role), StandsFn(c, images, role));
  }

  // ------------------------------------------------------------------------- attachments

  /** The files that go along with the prompt are, for a model that takes images, the attachments
      that are not text, in order, each under its name and type; for another model there is none. */
  lemma AttachmentsFollowTheModel(attachments: seq<Attachment>, images: bool)
    ensures !images ==> FlatMap(attachments, AttachedFn(images)) == []
    ensures images ==> FlatMap(attachments, AttachedFn(images)) == FlatMap(attachments, (a: Attachment) =>
      if "text/" <= a.mime then [] else [FilePart(a.name, a.content, a.mime)])
  {
    if images {
      FlatMapSame(attachments, AttachedFn(images), (a: Attachment) =>
        if "text/" <= a.mime then [] else [FilePart(a.name, a.content, a.mime)]);
    } else {
      FlatMapNone(attachments, AttachedFn(images));
    }
  }
}
