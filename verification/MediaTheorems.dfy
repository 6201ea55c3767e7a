/** What the media workaround keeps and what it removes, and what the passes together leave
    for a model without images. */
module MediaTheorems {
  import opened Common
  import opened Conversation
  import opened ConversationTheorems

  // ------------------------------------------------------------------------ what is kept

  /** What `g` picks from the converted form of one message. */
  lemma ReworkedPicks<V(!new)>(c: Codec, images: bool, m: Msg, g: Part -> seq<V>)
    requires m.role == Tool && IgnoresText(g)
    ensures Picked(Reworked(c, images, m), g)
         == FlatMap(FlatMap(m.content, TextFormFn(c, images)), g)
             + FlatMap(FlatMap(m.content, MediaFileFn(c, images)), g)
  {
    var t := Msg(Tool, FlatMap(m.content, TextFormFn(c, images)), "");
    var files := FlatMap(m.content, MediaFileFn(c, images));
    PickedAppend([t], MediaMessage(files), g);
    PickedOne(t, g);
    if files == [] {
      OneOrNone(files, g);
    } else {
      PickedOne(MediaMessage(files)[0], g);
      FlatMapAppend([TextPart(MEDIA_PROMPT)], files, g);
      FlatMapOne(TextPart(MEDIA_PROMPT), g);
    }
  }

  lemma MediaFilesPickNothing<V(!new)>(c: Codec, images: bool, parts: seq<Part>, g: Part -> seq<V>)
    requires forall p: Part | p.FilePart? :: g(p) == []
    ensures FlatMap(FlatMap(parts, MediaFileFn(c, images)), g) == []
  {
    forall p | p in FlatMap(parts, MediaFileFn(c, images)) ensures g(p) == [] {
      FlatMapIn(parts, MediaFileFn(c, images), p);
    }
    FlatMapNone(FlatMap(parts, MediaFileFn(c, images)), g);
  }

  /** The converted tool messages answer the same calls, in the same order. */
  lemma ResultIdsAreKept(c: Codec, model: Model, msgs: seq<Msg>)
    ensures ResultIds(Workaround(c, model, msgs)) == ResultIds(msgs)
    ensures CallIds(Workaround(c, model, msgs)) == CallIds(msgs)
  {
    if !SupportsMedia(model) {
      PicksAreKept(c, model, msgs, ResultIdOf);
      PicksAreKept(c, model, msgs, CallIdOf);
    }
  }

  lemma PicksAreKept<V(!new)>(c: Codec, model: Model, msgs: seq<Msg>, g: Part -> seq<V>)
    requires !SupportsMedia(model) && IgnoresText(g) && forall p: Part | p.FilePart? :: g(p) == []
    requires forall p :: g(TextForm(c, model.images, p)) == g(p)
    ensures Picked(Workaround(c, model, msgs), g) == Picked(msgs, g)
  {
    var f := ReworkedFn(c, model.images);
    forall m | m in msgs ensures InMsg(g)(m) == FlatMap(f(m), InMsg(g)) {
      if m.role == Tool {
        ReworkedPicks(c, model.images, m, g);
        MediaFilesPickNothing(c, model.images, m.content, g);
        forall p | p in m.content ensures g(p) == FlatMap(TextFormFn(c, model.images)(p), g) {
          FlatMapOne(TextForm(c, model.images, p), g);
        }
        FlatMapTwice(m.content, TextFormFn(c, model.images), g, g);
      } else {
        FlatMapOne(m, InMsg(g));
      }
    }
    FlatMapTwice(msgs, f, InMsg(g), InMsg(g));
  }

  // ------------------------------------------------------------------------------- order

  /** `a` is `b` with some elements left out. */
  ghost predicate IsSubsequence<T>(a: seq<T>, b: seq<T>) {
    if b == [] then a == [] else
      var front := b[..|b| - 1];
      IsSubsequence(a, front) || (a != [] && a[|a| - 1] == b[|b| - 1] && IsSubsequence(a[..|a| - 1], front))
  }

  lemma {:induction false} SubsequenceAppend<T>(a: seq<T>, b: seq<T>, c: seq<T>)
    requires IsSubsequence(a, b)
    ensures IsSubsequence(a + c, b + c) && IsSubsequence(a, b + c)
  {
    if c == [] {
      assert a + c == a && b + c == b;
    } else {
      var front := c[..|c| - 1];
      SubsequenceAppend(a, b, front);
      assert (a + c)[..|a + c| - 1] == a + front && (b + c)[..|b + c| - 1] == b + front;
    }
  }

  function NonToolFn(): Msg -> seq<Msg> { (m: Msg) => if m.role == Tool then [] else [m] }

  function NonTool(msgs: seq<Msg>): seq<Msg> { FlatMap(msgs, NonToolFn()) }

  lemma NonToolOfReworked(c: Codec, images: bool, m: Msg)
    ensures NonTool(Reworked(c, images, m))
         == if m.role == Tool then MediaMessage(FlatMap(m.content, MediaFileFn(c, images))) else [m]
  {
    if m.role != Tool {
      FlatMapOne(m, NonToolFn());
    } else {
      var t := Msg(Tool, FlatMap(m.content, TextFormFn(c, images)), "");
      var media := MediaMessage(FlatMap(m.content, MediaFileFn(c, images)));
      FlatMapAppend([t], media, NonToolFn());
      FlatMapOne(t, NonToolFn());
      OneOrNone(media, NonToolFn());
    }
  }

  /** Every non-tool message is still there, unchanged and in order; without image support
      nothing is added to them either. */
  lemma {:induction false} OtherMessagesAreKept(c: Codec, model: Model, msgs: seq<Msg>)
    ensures IsSubsequence(NonTool(msgs), NonTool(Workaround(c, model, msgs)))
    ensures !model.images ==> NonTool(Workaround(c, model, msgs)) == NonTool(msgs)
  {
    if SupportsMedia(model) || msgs == [] {
      SubsequenceAppend([], [], NonTool(msgs));
      assert [] + NonTool(msgs) == NonTool(msgs);
    } else {
      var front, m := msgs[..|msgs| - 1], msgs[|msgs| - 1];
      var kept := Reworked(c, model.images, m);
      OtherMessagesAreKept(c, model, front);
      FlatMapAppend(Workaround(c, model, front), kept, NonToolFn());
      NonToolOfReworked(c, model.images, m);
      SubsequenceAppend(NonTool(front), NonTool(Workaround(c, model, front)), NonTool(kept));
      if !model.images { FlatMapNone(m.content, MediaFileFn(c, false)); }
      if m.role == Tool { assert NonTool(msgs) == NonTool(front); }
    }
  }

  // ------------------------------------------------------------------ part by part

  lemma {:induction false} TextFormAt(c: Codec, images: bool, parts: seq<Part>, i: nat)
    requires i < |parts|
    ensures var text := FlatMap(parts, TextFormFn(c, images));
      |text| == |parts| && text[i] == TextForm(c, images, parts[i])
  {
    var front := parts[..|parts| - 1];
    if i < |front| {
      TextFormAt(c, images, front, i);
    } else {
      if front != [] { TextFormAt(c, images, front, 0); }
    }
  }

  /** The providers that take media in results get every conversation as it is; for every other
      provider the workaround goes message by message. */
  lemma WhoGetsTheWorkaround(c: Codec, model: Model, a: seq<Msg>, b: seq<Msg>)
    ensures model.provider == "anthropic" || model.provider == "bedrock" || model.provider == "bedrock-europe" ==>
      Workaround(c, model, a) == a
    ensures Workaround(c, model, a + b) == Workaround(c, model, a) + Workaround(c, model, b)
  {
    if !SupportsMedia(model) { FlatMapAppend(a, b, ReworkedFn(c, model.images)); }
  }

  /** What a part of a tool message becomes for another provider, in its place: media turns into
      a fixed text, which says whether a file follows; everything else stays, and so does media
      that cannot be decoded, for a model with images. */
  lemma EveryPartIsReplaced(c: Codec, model: Model, m: Msg, i: nat)
    requires m.role == Tool && i < |m.content|
    requires model.provider != "anthropic" && model.provider != "bedrock" && model.provider != "bedrock-europe"
    ensures var sent := Workaround(c, model, [m]);
      && |sent| > 0 && sent[0].role == Tool && |sent[0].content| == |m.content|
      && sent[0].content[i] == (
           var p := m.content[i];
           if !p.ResultPart? || !p.output.MediaOut? then p
           else if !model.images then p.(output := TextOut("[Image/media content not supported by this model]"))
           else if c.decode(p.output.data).None? then p
           else p.(output := TextOut("[Image/media content loaded - see attached file]")))
      && sent[1..] == (
           var files := FlatMap(m.content, DecodedFn(c, model.images));
           if files == [] then []
           else [Msg(User, [TextPart("Here is the media content from the tool result:")] + files, "")])
  {
    FlatMapOne(m, ReworkedFn(c, model.images));
    TextFormAt(c, model.images, m.content, i);
    FlatMapSame(m.content, MediaFileFn(c, model.images), DecodedFn(c, model.images));
    hide FlatMap;
  }

  /** The file that the media of a result turns into, named after its call. */
  function DecodedFn(c: Codec, images: bool): Part -> seq<Part> {
    (p: Part) =>
      if !images || !p.ResultPart? || !p.output.MediaOut? then []
      else match c.decode(p.output.data)
        case None => []
        case Some(data) => [FilePart("tool-result-" + p.callID, data, p.output.mime)]
  }

  // ------------------------------------------------------------------------- idempotence

  lemma UserMessagesStay(c: Codec, images: bool, files: seq<Part>)
    ensures FlatMap(MediaMessage(files), ReworkedFn(c, images)) == MediaMessage(files)
  {
  }

  lemma ReworkedTwice(c: Codec, images: bool, m: Msg)
    ensures FlatMap(Reworked(c, images, m), ReworkedFn(c, images)) == Reworked(c, images, m)
  {
    var f := ReworkedFn(c, images);
    if m.role != Tool {
      FlatMapOne(m, f);
    } else {
      var text, files := FlatMap(m.content, TextFormFn(c, images)), FlatMap(m.content, MediaFileFn(c, images));
      var t := Msg(Tool, text, "");
      UserMessagesStay(c, images, files);
      FlatMapAppend([t], MediaMessage(files), f);
      FlatMapOne(t, f);
      TextFormIsFinal(c, images, m.content);
      hide TextFormFn, MediaFileFn, FlatMap;
      assert f(t) == [t] + MediaMessage([]);
      hide MediaMessage;
      assert MediaMessage([]) == [] by { NoMediaNoMessage(); }
    }
  }

  lemma NoMediaNoMessage()
    ensures MediaMessage([]) == []
  {
  }

  /** Converting what was converted changes nothing and finds no media. */
  lemma TextFormIsFinal(c: Codec, images: bool, parts: seq<Part>)
    ensures var text := FlatMap(parts, TextFormFn(c, images));
      FlatMap(text, TextFormFn(c, images)) == text && FlatMap(text, MediaFileFn(c, images)) == []
  {
  }

  /** The workaround is idempotent, so running it again at every step of a turn is safe. */
  lemma WorkaroundIsIdempotent(c: Codec, model: Model, msgs: seq<Msg>)
    ensures Workaround(c, model, Workaround(c, model, msgs)) == Workaround(c, model, msgs)
  {
    if !SupportsMedia(model) {
      var f := ReworkedFn(c, model.images);
      forall m | m in msgs ensures f(m) == FlatMap(f(m), f) {
        ReworkedTwice(c, model.images, m);
      }
      FlatMapTwice(msgs, f, f, f);
    }
  }

  // ------------------------------------------------------------------- media conservation

  /** The files that a user message carries, and those that a tool message's media decode to. */
  function PayloadFn(c: Codec): Msg -> seq<Part> {
    (m: Msg) =>
      if m.role == Tool then FlatMap(m.content, MediaFileFn(c, true))
      else if m.role == User then FlatMap(m.content, FileIn) else []
  }

  lemma ReworkedPayload(c: Codec, m: Msg)
    ensures FlatMap(Reworked(c, true, m), PayloadFn(c)) == PayloadFn(c)(m)
  {
    if m.role != Tool {
      FlatMapOne(m, PayloadFn(c));
    } else {
      var files := FlatMap(m.content, MediaFileFn(c, true));
      var t := Msg(Tool, FlatMap(m.content, TextFormFn(c, true)), "");
      FlatMapAppend([t], MediaMessage(files), PayloadFn(c));
      FlatMapOne(t, PayloadFn(c));
      TextFormIsFinal(c, true, m.content);
      OneOrNone(MediaMessage(files), PayloadFn(c));
      if files != [] {
        FlatMapAppend([TextPart(MEDIA_PROMPT)], files, FileIn);
        FlatMapOne(TextPart(MEDIA_PROMPT), FileIn);
        FilesAreFiles(c, m.content);
      }
    }
  }

  lemma FilesAreFiles(c: Codec, parts: seq<Part>)
    ensures FlatMap(FlatMap(parts, MediaFileFn(c, true)), FileIn) == FlatMap(parts, MediaFileFn(c, true))
  {
    forall p | p in parts ensures MediaFileFn(c, true)(p) == FlatMap(MediaFileFn(c, true)(p), FileIn) {
      OneOrNone(MediaFileFn(c, true)(p), FileIn);
    }
    FlatMapTwice(parts, MediaFileFn(c, true), FileIn, MediaFileFn(c, true));
  }

  /** For a model that takes images no media is lost, doubled or moved: what the user attached
      and what the tools returned reaches the model in the original order. */
  lemma MediaIsConserved(c: Codec, model: Model, msgs: seq<Msg>)
    requires model.images
    ensures FlatMap(Workaround(c, model, msgs), PayloadFn(c)) == FlatMap(msgs, PayloadFn(c))
  {
    if !SupportsMedia(model) {
      forall m | m in msgs ensures PayloadFn(c)(m) == FlatMap(ReworkedFn(c, true)(m), PayloadFn(c)) {
        ReworkedPayload(c, m);
      }
      FlatMapTwice(msgs, ReworkedFn(c, true), PayloadFn(c), PayloadFn(c));
    }
  }

  // --------------------------------------------------------------- models without images

  function BinaryIn(p: Part): seq<Part> { if p.FilePart? || IsMedia(p) then [p] else [] }

  /** The parts that a text-only model rejects: files, and media in results. */
  function Binaries(msgs: seq<Msg>): seq<Part> { Picked(msgs, BinaryIn) }

  /** Media stands in tool messages only. */
  ghost predicate MediaInToolMessages(msgs: seq<Msg>) {
    forall m, p | m in msgs && m.role != Tool && p in m.content :: !IsMedia(p)
  }

  /** For a text-only model on a provider without media support, the workaround leaves exactly
      the files that were there before it; it removes all media and adds nothing. */
  lemma TextOnlyLeavesFiles(c: Codec, model: Model, msgs: seq<Msg>)
    requires !model.images && !SupportsMedia(model) && MediaInToolMessages(msgs)
    ensures Binaries(Workaround(c, model, msgs)) == Files(msgs)
  {
    var f := ReworkedFn(c, false);
    forall m | m in msgs ensures InMsg(FileIn)(m) == FlatMap(f(m), InMsg(BinaryIn)) {
      if m.role == Tool {
        ReworkedPicks(c, false, m, BinaryIn);
        FlatMapNone(m.content, MediaFileFn(c, false));
        forall p | p in m.content ensures FileIn(p) == FlatMap(TextFormFn(c, false)(p), BinaryIn) {
          FlatMapOne(TextForm(c, false, p), BinaryIn);
        }
        FlatMapTwice(m.content, TextFormFn(c, false), BinaryIn, FileIn);
      } else {
        FlatMapOne(m, InMsg(BinaryIn));
        FlatMapSame(m.content, BinaryIn, FileIn);
      }
    }
    FlatMapTwice(msgs, f, InMsg(BinaryIn), InMsg(FileIn));
  }

  /** What a turn sends at a step: the history, what the turn added, and the queued prompts
      that the step folds in. */
  function StepMessages(
      c: Codec, stored: seq<Stored>, subAgent: bool, images: bool, turn: seq<Msg>, folded: seq<Stored>): seq<Msg>
  {
    History(c, stored, subAgent, images) + turn + FlatMap(folded, ToAIFn(c))
  }

  function ToAIFn(c: Codec): Stored -> seq<Msg> { (m: Stored) => ToAIMessage(c, m) }

  lemma FoldedFiles(c: Codec, folded: seq<Stored>)
    requires forall m | m in folded :: m.role == User
    ensures Files(FlatMap(folded, ToAIFn(c))) == FlatMap(folded, UserFilesFn(true))
  {
    forall m | m in folded ensures UserFilesFn(true)(m) == FlatMap(ToAIFn(c)(m), InMsg(FileIn)) {
      UserBrings(c, m, FileIn);
      FilesBrought(c, {}, {}, true, m);
    }
    FlatMapTwice(folded, ToAIFn(c), InMsg(FileIn), UserFilesFn(true));
  }

  lemma HistoryMedia(c: Codec, msgs: seq<Stored>, subAgent: bool, images: bool)
    ensures MediaInToolMessages(History(c, msgs, subAgent, images))
  {
    var f := ConvertedFn(c, KnownCalls(msgs), KnownResults(msgs), images);
    forall m, p | m in History(c, msgs, subAgent, images) && m.role != Tool && p in m.content ensures !IsMedia(p) {
      if m in FlatMap(msgs, f) {
        FlatMapIn(msgs, f, m);
        var s :| s in msgs && m in f(s);
        ConvertedMedia(c, KnownCalls(msgs), KnownResults(msgs), images, s, m, p);
      }
    }
  }

  lemma ConvertedMedia(c: Codec, calls: set<string>, results: set<string>, images: bool, s: Stored, m: Msg, p: Part)
    requires m in Converted(c, calls, results, images, s) && m.role != Tool && p in m.content
    ensures !IsMedia(p)
  {
    hide FirstText, FirstReasoning, Trimmed, UserText, ToolCalls, FlatMap, ToAIMessage;
    match s.role
    case User =>
      UserPlain(c, s);
      assert ToAIMessage(c, s) == [ToAIMessage(c, s)[0]];
      FlatMapOne(ToAIMessage(c, s)[0], WithoutFilesFn());
      FlatMapIn(ToAIMessage(c, s)[0].content, NotFile, p);
    case Assistant =>
      AssistantPlain(c, s);
      UnstrippedAssistant(c, s);
    case Tool => ToolOnly(c, s);
    case System => NothingForSystem(c, s);
  }

  lemma UserPlain(c: Codec, s: Stored)
    requires s.role == User
    ensures |ToAIMessage(c, s)| == 1 && forall p | p in ToAIMessage(c, s)[0].content :: !IsMedia(p)
  {
    hide UserText;
    forall p | p in FlatMap(s.parts, FileOf) ensures !IsMedia(p) { FlatMapIn(s.parts, FileOf, p); }
    hide FlatMap;
  }

  lemma AssistantPlain(c: Codec, s: Stored)
    requires s.role == Assistant
    ensures |ToAIMessage(c, s)| == 1 && forall p | p in ToAIMessage(c, s)[0].content :: !IsMedia(p)
  {
    hide Trimmed, FirstText, FirstReasoning;
    forall p | p in FlatMap(s.parts, CallPartOf) ensures !IsMedia(p) { FlatMapIn(s.parts, CallPartOf, p); }
    hide FlatMap;
  }

  lemma ToolOnly(c: Codec, s: Stored)
    requires s.role == Tool
    ensures |ToAIMessage(c, s)| == 1 && ToAIMessage(c, s)[0].role == Tool
  {
  }

  lemma NothingForSystem(c: Codec, s: Stored)
    requires s.role == System
    ensures ToAIMessage(c, s) == [] && FlatMap(ToAIMessage(c, s), WithoutFilesFn()) == []
  {
  }

  lemma FoldedMedia(c: Codec, folded: seq<Stored>)
    requires forall m | m in folded :: m.role == User
    ensures MediaInToolMessages(FlatMap(folded, ToAIFn(c)))
  {
    forall m, p | m in FlatMap(folded, ToAIFn(c)) && m.role != Tool && p in m.content ensures !IsMedia(p) {
      FlatMapIn(folded, ToAIFn(c), m);
      var s :| s in folded && m in ToAIFn(c)(s);
      UserPlain(c, s);
    }
  }

  /** A stored user message that carries a file which is not text. */
  ghost predicate CarriesFile(m: Stored) {
    exists p :: p in m.parts && p.BinaryContent? && !IsText(p.mime)
  }

  /** A text-only model on a provider without media support gets no file and no media part at
      a step if and only if no queued prompt that the step folds in carries a file: the
      history is stripped of files, what a folded prompt brings is not. */
  lemma TextOnlyStepIsCleanUnlessFolded(
      c: Codec, model: Model, stored: seq<Stored>, subAgent: bool, turn: seq<Msg>, folded: seq<Stored>)
    requires !model.images && !SupportsMedia(model)
    requires MediaInToolMessages(turn) && Files(turn) == []
    requires forall m | m in folded :: m.role == User
    ensures var sent := Workaround(c, model, StepMessages(c, stored, subAgent, false, turn, folded));
      Binaries(sent) == FlatMap(folded, UserFilesFn(true))
      && (Binaries(sent) == [] <==> forall m | m in folded :: !CarriesFile(m))
  {
    var history := History(c, stored, subAgent, false);
    var ai := FlatMap(folded, ToAIFn(c));
    HistoryMedia(c, stored, subAgent, false);
    FoldedMedia(c, folded);
    TextOnlyLeavesFiles(c, model, history + turn + ai);
    PickedAppend(history + turn, ai, FileIn);
    PickedAppend(history, turn, FileIn);
    UserFilesFollowTheModel(c, stored, subAgent, false);
    FoldedFiles(c, folded);
    SomeFileCarried(folded);
  }

  lemma SomeFileCarried(folded: seq<Stored>)
    requires forall m | m in folded :: m.role == User
    ensures FlatMap(folded, UserFilesFn(true)) == [] <==> forall m | m in folded :: !CarriesFile(m)
  {
    forall m | m in folded ensures UserFilesFn(true)(m) == [] <==> !CarriesFile(m) {
      if CarriesFile(m) {
        var p :| p in m.parts && p.BinaryContent? && !IsText(p.mime);
        FlatMapIn(m.parts, FileOf, FileOf(p)[0]);
      } else {
        FlatMapNone(m.parts, FileOf);
      }
    }
    if m :| m in folded && CarriesFile(m) {
      FlatMapIn(folded, UserFilesFn(true), UserFilesFn(true)(m)[0]);
    } else {
      FlatMapNone(folded, UserFilesFn(true));
    }
  }
}
