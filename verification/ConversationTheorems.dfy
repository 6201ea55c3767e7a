/** What the passes over a conversation guarantee, for every list of messages. */
module ConversationTheorems {
  import opened Common
  import opened Conversation

  // ------------------------------------------------------- projections of a conversation

  function InMsg<V>(g: Part -> seq<V>): Msg -> seq<V> { (m: Msg) => FlatMap(m.content, g) }

  /** What `g` picks out of every part of every message, in order. */
  function Picked<V>(msgs: seq<Msg>, g: Part -> seq<V>): seq<V> { FlatMap(msgs, InMsg(g)) }

  function CallIdOf(p: Part): seq<string> { if p.CallPart? then [p.id] else [] }
  function ResultIdOf(p: Part): seq<string> { if p.ResultPart? then [p.callID] else [] }
  function FileIn(p: Part): seq<Part> { if p.FilePart? then [p] else [] }

  /** The ids of all tool calls and of all tool results, and the files, in order. */
  function CallIds(msgs: seq<Msg>): seq<string> { Picked(msgs, CallIdOf) }
  function ResultIds(msgs: seq<Msg>): seq<string> { Picked(msgs, ResultIdOf) }
  function Files(msgs: seq<Msg>): seq<Part> { Picked(msgs, FileIn) }

  lemma {:induction false} FlatMapNone<T, U>(xs: seq<T>, f: T -> seq<U>)
    requires forall x | x in xs :: f(x) == []
    ensures FlatMap(xs, f) == []
  {
    if xs == [] {
    } else {
      FlatMapNone(xs[..|xs| - 1], f);
    }
  }

  lemma PickedAppend<V(!new)>(a: seq<Msg>, b: seq<Msg>, g: Part -> seq<V>)
    ensures Picked(a + b, g) == Picked(a, g) + Picked(b, g)
  {
    FlatMapAppend(a, b, InMsg(g));
  }

  lemma PickedOne<V(!new)>(m: Msg, g: Part -> seq<V>)
    ensures Picked([m], g) == FlatMap(m.content, g)
  {
    FlatMapOne(m, InMsg(g));
  }

  lemma PickedIfAny<V(!new)>(role: Role, content: seq<Part>, options: string, g: Part -> seq<V>)
    ensures Picked(IfAny(role, content, options), g) == FlatMap(content, g)
  {
    if content != [] { PickedOne(Msg(role, content, options), g); }
  }

  // ---------------------------------------------------------- what a stored message brings

  /** What `g` picks from the parts that a stored part of an assistant message becomes. */
  function ViaCall<V>(g: Part -> seq<V>): StoredPart -> seq<V> { (p: StoredPart) => FlatMap(CallPartOf(p), g) }
  function ViaFile<V>(g: Part -> seq<V>): StoredPart -> seq<V> { (p: StoredPart) => FlatMap(FileOf(p), g) }

  function ViaResult<V>(c: Codec, calls: set<string>, g: Part -> seq<V>): StoredPart -> seq<V> {
    (p: StoredPart) => if p.ToolResult? && p.callID in calls then g(ResultPart(p.callID, OutputOf(c, p), "")) else []
  }

  function ViaSynthetic<V>(results: set<string>, g: Part -> seq<V>): StoredPart -> seq<V> {
    (p: StoredPart) => FlatMap(SyntheticFn(results)(p), g)
  }

  /** Text and reasoning hold nothing that `g` picks. */
  ghost predicate IgnoresText<V(!new)>(g: Part -> seq<V>) {
    forall p: Part | p.TextPart? || p.ReasoningPart? :: g(p) == []
  }

  /** What `g` picks from the contribution of one stored message. */
  function Brought<V>(
      c: Codec, calls: set<string>, results: set<string>, images: bool, g: Part -> seq<V>, m: Stored): seq<V>
  {
    match m.role
    case User => if images then FlatMap(m.parts, ViaFile(g)) else []
    case Assistant => FlatMap(m.parts, ViaCall(g)) + FlatMap(m.parts, ViaSynthetic(results, g))
    case Tool => FlatMap(m.parts, ViaResult(c, calls, g))
    case System => []
  }

  function BroughtFn<V>(
      c: Codec, calls: set<string>, results: set<string>, images: bool, g: Part -> seq<V>): Stored -> seq<V>
  {
    (m: Stored) => Brought(c, calls, results, images, g, m)
  }

  function ViaKnown<V>(calls: set<string>, g: Part -> seq<V>): Part -> seq<V> {
    (p: Part) => FlatMap(KnownPartFn(calls)(p), g)
  }

  lemma ToolBrings<V(!new)>(c: Codec, calls: set<string>, m: Stored, g: Part -> seq<V>)
    requires m.role == Tool
    ensures Picked(WithoutOrphanedResults(c, m, calls), g) == FlatMap(m.parts, ViaResult(c, calls, g))
  {
    var parts := FlatMap(m.parts, ResultPartFn(c));
    var known := KnownPartFn(calls);
    var kept := FlatMap(parts, known);
    PickedIfAny(Tool, kept, "", g);
    var h := ViaKnown(calls, g);
    FlatMapTwice(parts, known, g, h);
    forall p | p in m.parts ensures ViaResult(c, calls, g)(p) == FlatMap(ResultPartFn(c)(p), h) {
      ResultPicked(c, calls, p, g);
    }
    FlatMapTwice(m.parts, ResultPartFn(c), h, ViaResult(c, calls, g));
  }

  lemma ResultPicked<V(!new)>(c: Codec, calls: set<string>, p: StoredPart, g: Part -> seq<V>)
    ensures ViaResult(c, calls, g)(p)
         == FlatMap(ResultPartFn(c)(p), ViaKnown(calls, g))
  {
    OneOrNone(ResultPartFn(c)(p), ViaKnown(calls, g));
    if p.ToolResult? {
      OneOrNone(KnownPartFn(calls)(ResultPartFn(c)(p)[0]), g);
    }
  }

  lemma TextBringsNothing<V(!new)>(text: string, g: Part -> seq<V>)
    requires IgnoresText(g)
    ensures FlatMap(TextIfAny(text), g) == []
  {
  }

  lemma AssistantBrings<V(!new)>(c: Codec, m: Stored, g: Part -> seq<V>)
    requires m.role == Assistant && IgnoresText(g)
    ensures Picked(ToAIMessage(c, m), g) == FlatMap(m.parts, ViaCall(g))
  {
    var text, reasoning := TextIfAny(Trimmed(c, FirstText(m.parts))), ReasoningIfAny(FirstReasoning(m.parts));
    PickedOne(ToAIMessage(c, m)[0], g);
    FlatMapAppend(text + reasoning, FlatMap(m.parts, CallPartOf), g);
    FlatMapAppend(text, reasoning, g);
    TextBringsNothing(Trimmed(c, FirstText(m.parts)), g);
    if reasoning != [] { FlatMapOne(reasoning[0], g); }
    FlatMapTwice(m.parts, CallPartOf, g, ViaCall(g));
  }

  lemma UserBrings<V(!new)>(c: Codec, m: Stored, g: Part -> seq<V>)
    requires m.role == User && IgnoresText(g)
    ensures Picked(ToAIMessage(c, m), g) == FlatMap(m.parts, ViaFile(g))
  {
    PickedOne(ToAIMessage(c, m)[0], g);
    FlatMapAppend(TextIfAny(UserText(c, m)), FlatMap(m.parts, FileOf), g);
    TextBringsNothing(UserText(c, m), g);
    FlatMapTwice(m.parts, FileOf, g, ViaFile(g));
  }

  lemma StrippedUserBringsNothing<V(!new)>(c: Codec, m: Stored, g: Part -> seq<V>)
    requires m.role == User && IgnoresText(g)
    ensures Picked(FlatMap(ToAIMessage(c, m), WithoutFilesFn()), g) == []
  {
    var ai := ToAIMessage(c, m)[0];
    FlatMapOne(ai, WithoutFilesFn());
    PickedOne(WithoutFiles(ai), g);
    forall p | p in FlatMap(ai.content, NotFile) ensures g(p) == [] {
      FlatMapIn(ai.content, NotFile, p);
      var q :| q in ai.content && p in NotFile(q);
      FlatMapIn(m.parts, FileOf, p);
    }
    FlatMapNone(FlatMap(ai.content, NotFile), g);
  }

  lemma UnstrippedAssistant(c: Codec, m: Stored)
    requires m.role == Assistant
    ensures FlatMap(ToAIMessage(c, m), WithoutFilesFn()) == ToAIMessage(c, m)
  {
    hide FirstText, FirstReasoning, Trimmed;
    FlatMapOne(ToAIMessage(c, m)[0], WithoutFilesFn());
    hide FlatMap;
  }

  lemma SkippedBringsNothing<V(!new)>(
      c: Codec, calls: set<string>, results: set<string>, images: bool, m: Stored, g: Part -> seq<V>)
    requires Skipped(m)
    ensures Brought(c, calls, results, images, g, m) == []
  {
    if m.parts != [] {
      forall p | p in m.parts ensures ViaCall(g)(p) == [] && ViaSynthetic(results, g)(p) == [] {
        FlatMapIn(m.parts, CallOf, p);
        assert p in CallOf(p) || !p.ToolCall?;
        assert SyntheticFn(results)(p) == [];
      }
      FlatMapNone(m.parts, ViaCall(g));
      FlatMapNone(m.parts, ViaSynthetic(results, g));
    }
  }

  /** What any projection sees of one stored message in the history. */
  lemma ConvertedBrings<V(!new)>(
      c: Codec, calls: set<string>, results: set<string>, images: bool, m: Stored, g: Part -> seq<V>)
    requires IgnoresText(g)
    ensures Picked(Converted(c, calls, results, images, m), g) == Brought(c, calls, results, images, g, m)
  {
    if Skipped(m) {
      SkippedBringsNothing(c, calls, results, images, m, g);
    } else {
      match m.role
      case Tool => ToolBrings(c, calls, m, g);
      case User =>
        if images { UserBrings(c, m, g); } else { StrippedUserBringsNothing(c, m, g); }
      case Assistant =>
        AssistantBrings(c, m, g);
        UnstrippedAssistant(c, m);
        PickedAppend(ToAIMessage(c, m), SyntheticResults(m, results), g);
        PickedIfAny(Tool, FlatMap(m.parts, SyntheticFn(results)), "", g);
        FlatMapTwice(m.parts, SyntheticFn(results), g, ViaSynthetic(results, g));
      case System =>
    }
  }

  /** What any projection sees of the whole history. */
  lemma HistoryBrings<V(!new)>(c: Codec, msgs: seq<Stored>, subAgent: bool, images: bool, g: Part -> seq<V>)
    requires IgnoresText(g)
    ensures Picked(History(c, msgs, subAgent, images), g)
         == FlatMap(msgs, BroughtFn(c, KnownCalls(msgs), KnownResults(msgs), images, g))
  {
    var f := ConvertedFn(c, KnownCalls(msgs), KnownResults(msgs), images);
    PickedAppend(Reminder(subAgent), FlatMap(msgs, f), g);
    if !subAgent {
      PickedOne(Reminder(subAgent)[0], g);
      FlatMapOne(Reminder(subAgent)[0].content[0], g);
    }
    forall m | m in msgs
      ensures BroughtFn(c, KnownCalls(msgs), KnownResults(msgs), images, g)(m) == FlatMap(f(m), InMsg(g)) {
      ConvertedBrings(c, KnownCalls(msgs), KnownResults(msgs), images, m, g);
    }
    FlatMapTwice(msgs, f, InMsg(g), BroughtFn(c, KnownCalls(msgs), KnownResults(msgs), images, g));
  }

  // ------------------------------------------------------------------- tool-call closure

  lemma KnownCallIn(msgs: seq<Stored>, id: string)
    ensures id in KnownCalls(msgs) <==>
      exists m, p :: m in msgs && m.role == Assistant && p in m.parts && p.ToolCall? && p.id == id
  {
    FlatMapIn(msgs, KnownCallsFn(), id);
    forall m | m in msgs ensures id in KnownCallsFn()(m) <==>
      exists p :: m.role == Assistant && p in m.parts && p.ToolCall? && p.id == id {
      FlatMapIn(m.parts, StoredCallId, id);
    }
  }

  lemma KnownResultIn(msgs: seq<Stored>, id: string)
    ensures id in KnownResults(msgs) <==>
      exists m, p :: m in msgs && m.role == Tool && p in m.parts && p.ToolResult? && p.callID == id
  {
    FlatMapIn(msgs, KnownResultsFn(), id);
    forall m | m in msgs ensures id in KnownResultsFn()(m) <==>
      exists p :: m.role == Tool && p in m.parts && p.ToolResult? && p.callID == id {
      FlatMapIn(m.parts, StoredResultId, id);
    }
  }

  /** Every call of every assistant message is in the history, and no other. */
  lemma CallInHistory(c: Codec, msgs: seq<Stored>, subAgent: bool, images: bool, id: string)
    ensures id in CallIds(History(c, msgs, subAgent, images)) <==> id in KnownCalls(msgs)
  {
    var calls, results := KnownCalls(msgs), KnownResults(msgs);
    HistoryBrings(c, msgs, subAgent, images, CallIdOf);
    FlatMapIn(msgs, BroughtFn(c, calls, results, images, CallIdOf), id);
    KnownCallIn(msgs, id);
    forall m | m in msgs ensures id in Brought(c, calls, results, images, CallIdOf, m) <==>
      exists p :: m.role == Assistant && p in m.parts && p.ToolCall? && p.id == id {
      CallBrought(c, calls, results, images, m, id);
    }
  }

  lemma CallBrought(c: Codec, calls: set<string>, results: set<string>, images: bool, m: Stored, id: string)
    ensures id in Brought(c, calls, results, images, CallIdOf, m) <==>
      exists p :: m.role == Assistant && p in m.parts && p.ToolCall? && p.id == id
  {
    match m.role
    case User => NothingViaFile(m.parts, CallIdOf);
    case Tool =>
      forall p | p in m.parts ensures ViaResult(c, calls, CallIdOf)(p) == [] {
        if p.ToolResult? { assert CallIdOf(ResultPart(p.callID, OutputOf(c, p), "")) == []; }
      }
      FlatMapNone(m.parts, ViaResult(c, calls, CallIdOf));
    case Assistant =>
      FlatMapIn(m.parts, ViaCall(CallIdOf), id);
      forall p | p in m.parts
        ensures ViaSynthetic(results, CallIdOf)(p) == []
        ensures id in ViaCall(CallIdOf)(p) <==> p.ToolCall? && p.id == id {
        OneOrNone(SyntheticFn(results)(p), CallIdOf);
        OneOrNone(CallPartOf(p), CallIdOf);
      }
      FlatMapNone(m.parts, ViaSynthetic(results, CallIdOf));
    case System =>
  }

  lemma NothingViaFile<V(!new)>(parts: seq<StoredPart>, g: Part -> seq<V>)
    requires forall p: Part | p.FilePart? :: g(p) == []
    ensures FlatMap(parts, ViaFile(g)) == []
  {
    forall p | p in parts ensures ViaFile(g)(p) == [] {
      OneOrNone(FileOf(p), g);
    }
    FlatMapNone(parts, ViaFile(g));
  }

  lemma OneOrNone<T, U>(xs: seq<T>, f: T -> seq<U>)
    requires |xs| <= 1
    ensures FlatMap(xs, f) == if xs == [] then [] else f(xs[0])
  {
  }

  lemma AnswersIn(c: Codec, calls: set<string>, m: Stored, id: string)
    ensures id in FlatMap(m.parts, ViaResult(c, calls, ResultIdOf)) <==>
      exists p :: p in m.parts && p.ToolResult? && p.callID == id && id in calls
  {
    FlatMapIn(m.parts, ViaResult(c, calls, ResultIdOf), id);
    forall p | p in m.parts
      ensures id in ViaResult(c, calls, ResultIdOf)(p) <==> p.ToolResult? && p.callID == id && id in calls {
      if p.ToolResult? { assert ResultIdOf(ResultPart(p.callID, OutputOf(c, p), "")) == [p.callID]; }
    }
  }

  lemma SyntheticIn(results: set<string>, m: Stored, id: string)
    ensures id in FlatMap(m.parts, ViaCall(ResultIdOf)) + FlatMap(m.parts, ViaSynthetic(results, ResultIdOf)) <==>
      exists p :: p in m.parts && p.ToolCall? && p.id == id && id !in results
  {
    FlatMapIn(m.parts, ViaSynthetic(results, ResultIdOf), id);
    forall p | p in m.parts
      ensures ViaCall(ResultIdOf)(p) == []
      ensures id in ViaSynthetic(results, ResultIdOf)(p) <==> p.ToolCall? && p.id == id && id !in results {
      OneOrNone(CallPartOf(p), ResultIdOf);
      OneOrNone(SyntheticFn(results)(p), ResultIdOf);
    }
    FlatMapNone(m.parts, ViaCall(ResultIdOf));
  }

  lemma ResultBrought(c: Codec, calls: set<string>, results: set<string>, images: bool, m: Stored, id: string)
    ensures id in Brought(c, calls, results, images, ResultIdOf, m) <==>
      || (exists p :: m.role == Tool && p in m.parts && p.ToolResult? && p.callID == id && id in calls)
      || (exists p :: m.role == Assistant && p in m.parts && p.ToolCall? && p.id == id && id !in results)
  {
    match m.role
    case User => NothingViaFile(m.parts, ResultIdOf);
    case Tool => AnswersIn(c, calls, m, id);
    case Assistant => SyntheticIn(results, m, id);
    case System =>
  }

  /** Every call has a result in the history and every result has a call, and the calls are
      those of the session, whatever was interrupted or lost. */
  lemma ToolCallClosure(c: Codec, msgs: seq<Stored>, subAgent: bool, images: bool, id: string)
    ensures var h := History(c, msgs, subAgent, images);
      && (id in CallIds(h) <==> id in KnownCalls(msgs))
      && (id in ResultIds(h) <==> id in CallIds(h))
  {
    var calls, results := KnownCalls(msgs), KnownResults(msgs);
    CallInHistory(c, msgs, subAgent, images, id);
    HistoryBrings(c, msgs, subAgent, images, ResultIdOf);
    FlatMapIn(msgs, BroughtFn(c, calls, results, images, ResultIdOf), id);
    KnownCallIn(msgs, id);
    KnownResultIn(msgs, id);
    forall m | m in msgs ensures id in Brought(c, calls, results, images, ResultIdOf, m) <==>
      || (exists p :: m.role == Tool && p in m.parts && p.ToolResult? && p.callID == id && id in calls)
      || (exists p :: m.role == Assistant && p in m.parts && p.ToolCall? && p.id == id && id !in results) {
      ResultBrought(c, calls, results, images, m, id);
    }
  }

  // --------------------------------------------------------------- how often an id occurs

  /** The ids of the session's tool calls and of its tool results, as they are stored. */
  function StoredCallIds(msgs: seq<Stored>): seq<string> { FlatMap(msgs, KnownCallsFn()) }
  function StoredResultIds(msgs: seq<Stored>): seq<string> { FlatMap(msgs, KnownResultsFn()) }

  function Only(id: string): string -> seq<string> { (x: string) => if x == id then [x] else [] }

  lemma {:induction false} Multiplicity(ids: seq<string>, id: string)
    ensures |FlatMap(ids, Only(id))| == multiset(ids)[id]
  {
    if ids == [] {
    } else {
      Multiplicity(ids[..|ids| - 1], id);
      assert ids == ids[..|ids| - 1] + [ids[|ids| - 1]];
    }
  }

  function ResultWith(id: string): Part -> seq<string> {
    (p: Part) => if p.ResultPart? && p.callID == id then [id] else []
  }

  /** The history has as many results for an id as the projection on that id picks. */
  lemma ResultsWith(h: seq<Msg>, id: string)
    ensures |Picked(h, ResultWith(id))| == multiset(ResultIds(h))[id]
  {
    forall m | m in h ensures InMsg(ResultWith(id))(m) == FlatMap(InMsg(ResultIdOf)(m), Only(id)) {
      forall p | p in m.content ensures ResultWith(id)(p) == FlatMap(ResultIdOf(p), Only(id)) {
        OneOrNone(ResultIdOf(p), Only(id));
      }
      FlatMapTwice(m.content, ResultIdOf, Only(id), ResultWith(id));
    }
    FlatMapTwice(h, InMsg(ResultIdOf), Only(id), InMsg(ResultWith(id)));
    Multiplicity(ResultIds(h), id);
  }

  /** What one stored message brings for an id: its stored results if the id has a call, and
      interrupted ones for its calls if no tool message answers the id. */
  function ExpectedFn(calls: set<string>, results: set<string>, id: string): Stored -> seq<string> {
    (m: Stored) =>
      if id in results then (if id in calls then FlatMap(KnownResultsFn()(m), Only(id)) else [])
      else FlatMap(KnownCallsFn()(m), Only(id))
  }

  lemma ResultsBroughtFor(c: Codec, calls: set<string>, results: set<string>, images: bool, m: Stored, id: string)
    requires m.role == Tool ==> forall p | p in m.parts && p.ToolResult? :: p.callID in results
    ensures Brought(c, calls, results, images, ResultWith(id), m) == ExpectedFn(calls, results, id)(m)
  {
    var g := ResultWith(id);
    OneOrNone<string, string>([], Only(id));
    assert KnownCallsFn()(m) == if m.role == Assistant then FlatMap(m.parts, StoredCallId) else [];
    assert KnownResultsFn()(m) == if m.role == Tool then FlatMap(m.parts, StoredResultId) else [];
    match m.role
    case User => NothingViaFile(m.parts, g);
    case Tool =>
      ToolBringsFor(c, calls, m, id);
      if id !in results || id !in calls { FlatMapNone(m.parts, ViaResult(c, calls, g)); }
    case Assistant =>
      AssistantBringsFor(results, m, id);
      if id in results { FlatMapNone(m.parts, ViaSynthetic(results, g)); }
    case System =>
  }

  lemma ToolBringsFor(c: Codec, calls: set<string>, m: Stored, id: string)
    ensures forall p | p in m.parts ::
      ViaResult(c, calls, ResultWith(id))(p)
        == if p.ToolResult? && p.callID in calls && p.callID == id then [id] else []
    ensures id in calls ==>
      FlatMap(m.parts, ViaResult(c, calls, ResultWith(id))) == FlatMap(FlatMap(m.parts, StoredResultId), Only(id))
  {
    var via := ViaResult(c, calls, ResultWith(id));
    forall p | p in m.parts
      ensures via(p) == if p.ToolResult? && p.callID in calls && p.callID == id then [id] else []
      ensures id in calls ==> via(p) == FlatMap(StoredResultId(p), Only(id)) {
      OneOrNone(StoredResultId(p), Only(id));
    }
    if id in calls { FlatMapTwice(m.parts, StoredResultId, Only(id), via); }
  }

  lemma AssistantBringsFor(results: set<string>, m: Stored, id: string)
    ensures FlatMap(m.parts, ViaCall(ResultWith(id))) == []
    ensures forall p | p in m.parts ::
      ViaSynthetic(results, ResultWith(id))(p) == if p.ToolCall? && p.id !in results && p.id == id then [id] else []
    ensures id !in results ==>
      FlatMap(m.parts, ViaSynthetic(results, ResultWith(id))) == FlatMap(FlatMap(m.parts, StoredCallId), Only(id))
  {
    var via := ViaSynthetic(results, ResultWith(id));
    forall p | p in m.parts
      ensures ViaCall(ResultWith(id))(p) == []
      ensures via(p) == if p.ToolCall? && p.id !in results && p.id == id then [id] else []
      ensures id !in results ==> via(p) == FlatMap(StoredCallId(p), Only(id)) {
      OneOrNone(CallPartOf(p), ResultWith(id));
      OneOrNone(SyntheticFn(results)(p), ResultWith(id));
      OneOrNone(StoredCallId(p), Only(id));
    }
    FlatMapNone(m.parts, ViaCall(ResultWith(id)));
    if id !in results { FlatMapTwice(m.parts, StoredCallId, Only(id), via); }
  }

  /** How often each id occurs among the results of the history: as often as it is stored if
      it has a call and a stored result, never without a call, and as often as it is called if
      no result is stored. */
  lemma ResultMultiplicity(c: Codec, msgs: seq<Stored>, subAgent: bool, images: bool, id: string)
    ensures multiset(ResultIds(History(c, msgs, subAgent, images)))[id]
         == if id in KnownResults(msgs)
            then (if id in KnownCalls(msgs) then multiset(StoredResultIds(msgs))[id] else 0)
            else multiset(StoredCallIds(msgs))[id]
  {
    hide Brought, KnownCalls, KnownResults, History;
    var calls, results := KnownCalls(msgs), KnownResults(msgs);
    var g, expected := ResultWith(id), ExpectedFn(calls, results, id);
    HistoryBrings(c, msgs, subAgent, images, g);
    ResultsWith(History(c, msgs, subAgent, images), id);
    forall m | m in msgs ensures BroughtFn(c, calls, results, images, g)(m) == expected(m) {
      forall p | m.role == Tool && p in m.parts && p.ToolResult? ensures p.callID in results {
        KnownResultIn(msgs, p.callID);
      }
      ResultsBroughtFor(c, calls, results, images, m, id);
    }
    FlatMapSame(msgs, BroughtFn(c, calls, results, images, g), expected);
    if id !in results {
      FlatMapTwice(msgs, KnownCallsFn(), Only(id), expected);
      Multiplicity(StoredCallIds(msgs), id);
    } else if id in calls {
      FlatMapTwice(msgs, KnownResultsFn(), Only(id), expected);
      Multiplicity(StoredResultIds(msgs), id);
    } else {
      FlatMapNone(msgs, expected);
    }
  }

  /** The calls of the history are the stored ones, in their order and multiplicity. */
  lemma CallsAreKept(c: Codec, msgs: seq<Stored>, subAgent: bool, images: bool)
    ensures CallIds(History(c, msgs, subAgent, images)) == StoredCallIds(msgs)
  {
    hide KnownCalls, KnownResults, History;
    var calls, results := KnownCalls(msgs), KnownResults(msgs);
    HistoryBrings(c, msgs, subAgent, images, CallIdOf);
    forall m | m in msgs ensures BroughtFn(c, calls, results, images, CallIdOf)(m) == KnownCallsFn()(m) {
      CallsBrought(c, calls, results, images, m);
    }
    FlatMapSame(msgs, BroughtFn(c, calls, results, images, CallIdOf), KnownCallsFn());
  }

  lemma CallsBrought(c: Codec, calls: set<string>, results: set<string>, images: bool, m: Stored)
    ensures Brought(c, calls, results, images, CallIdOf, m) == KnownCallsFn()(m)
  {
    match m.role
    case User => NothingViaFile(m.parts, CallIdOf);
    case Tool =>
      forall p | p in m.parts ensures ViaResult(c, calls, CallIdOf)(p) == [] {
        if p.ToolResult? { assert CallIdOf(ResultPart(p.callID, OutputOf(c, p), "")) == []; }
      }
      FlatMapNone(m.parts, ViaResult(c, calls, CallIdOf));
    case Assistant =>
      forall p | p in m.parts
        ensures ViaSynthetic(results, CallIdOf)(p) == [] && ViaCall(CallIdOf)(p) == StoredCallId(p) {
        OneOrNone(SyntheticFn(results)(p), CallIdOf);
        OneOrNone(CallPartOf(p), CallIdOf);
      }
      FlatMapNone(m.parts, ViaSynthetic(results, CallIdOf));
      FlatMapSame(m.parts, ViaCall(CallIdOf), StoredCallId);
    case System =>
  }

  ghost predicate NoneTwice(ids: seq<string>) { forall id :: multiset(ids)[id] <= 1 }

  /** Exactly one result per call: if no stored call and no stored result has an id twice, the
      history has the same ids among its calls and among its results, each once. */
  lemma OneResultPerCall(c: Codec, msgs: seq<Stored>, subAgent: bool, images: bool)
    requires NoneTwice(StoredCallIds(msgs)) && NoneTwice(StoredResultIds(msgs))
    ensures var h := History(c, msgs, subAgent, images);
      multiset(ResultIds(h)) == multiset(CallIds(h)) == multiset(StoredCallIds(msgs)) && NoneTwice(CallIds(h))
  {
    hide History;
    var h := History(c, msgs, subAgent, images);
    CallsAreKept(c, msgs, subAgent, images);
    forall id ensures multiset(ResultIds(h))[id] == multiset(StoredCallIds(msgs))[id] {
      ResultMultiplicity(c, msgs, subAgent, images, id);
      assert id in KnownCalls(msgs) <==> id in multiset(StoredCallIds(msgs));
      assert id in KnownResults(msgs) <==> id in multiset(StoredResultIds(msgs));
    }
  }

  // -------------------------------------------------------------- where the results stand

  lemma {:induction false} FlatMapSplit<T, U>(xs: seq<T>, k: nat, f: T -> seq<U>)
    requires k < |xs|
    ensures FlatMap(xs, f) == FlatMap(xs[..k], f) + f(xs[k]) + FlatMap(xs[k + 1..], f)
  {
    assert xs == xs[..k + 1] + xs[k + 1..];
    FlatMapAppend(xs[..k + 1], xs[k + 1..], f);
    FlatMapNext(xs, k, f);
  }

  /** The calls of an assistant message that no tool message answers, in order. */
  function OrphanIds(m: Stored, results: set<string>): seq<string> {
    FlatMap(m.parts, (p: StoredPart) => if p.ToolCall? && p.id !in results then [p.id] else [])
  }

  function CallIdsOf(m: Stored): seq<string> { FlatMap(m.parts, StoredCallId) }

  lemma AssistantIds(c: Codec, m: Stored, results: set<string>)
    requires m.role == Assistant
    ensures FlatMap(ToAIMessage(c, m)[0].content, CallIdOf) == CallIdsOf(m)
    ensures FlatMap(FlatMap(m.parts, SyntheticFn(results)), ResultIdOf) == OrphanIds(m, results)
  {
    AssistantBrings(c, m, CallIdOf);
    PickedOne(ToAIMessage(c, m)[0], CallIdOf);
    var orphan := (p: StoredPart) => if p.ToolCall? && p.id !in results then [p.id] else [];
    forall p | p in m.parts
      ensures ViaCall(CallIdOf)(p) == StoredCallId(p)
      ensures FlatMap(SyntheticFn(results)(p), ResultIdOf) == orphan(p) {
      OneOrNone(CallPartOf(p), CallIdOf);
      OneOrNone(SyntheticFn(results)(p), ResultIdOf);
    }
    FlatMapSame(m.parts, ViaCall(CallIdOf), StoredCallId);
    FlatMapTwice(m.parts, SyntheticFn(results), ResultIdOf, orphan);
  }

  lemma OrphansMeanCalls(m: Stored, results: set<string>)
    requires OrphanIds(m, results) != []
    ensures m.parts != [] && ToolCalls(m) != []
  {
    var orphan := (p: StoredPart) => if p.ToolCall? && p.id !in results then [p.id] else [];
    FlatMapIn(m.parts, orphan, OrphanIds(m, results)[0]);
    var p :| p in m.parts && OrphanIds(m, results)[0] in orphan(p);
    FlatMapIn(m.parts, CallOf, p);
  }

  /** An assistant message, and a tool message with one interrupted result for each of its
      unanswered calls, in their order. */
  ghost predicate AnsweredBy(m: Stored, results: set<string>, a: Msg, t: Msg) {
    && a.role == Assistant && t.role == Tool
    && FlatMap(a.content, CallIdOf) == CallIdsOf(m)
    && FlatMap(t.content, ResultIdOf) == OrphanIds(m, results)
    && forall p | p in t.content :: IsInterrupted(p)
  }

  predicate IsInterrupted(p: Part) { p.ResultPart? && p.output == ErrorOut(INTERRUPTED) }

  lemma SyntheticIsInterrupted(m: Stored, results: set<string>)
    ensures forall p | p in FlatMap(m.parts, SyntheticFn(results)) :: IsInterrupted(p)
  {
    forall p | p in FlatMap(m.parts, SyntheticFn(results)) ensures IsInterrupted(p) {
      FlatMapIn(m.parts, SyntheticFn(results), p);
    }
  }

  lemma OrphansAreAnswered(c: Codec, calls: set<string>, results: set<string>, images: bool, m: Stored)
    requires m.role == Assistant && OrphanIds(m, results) != []
    ensures var pair := Converted(c, calls, results, images, m);
      |pair| == 2 && AnsweredBy(m, results, pair[0], pair[1])
  {
    hide IsInterrupted, ToolCalls, FlatMap, FirstText, FirstReasoning, SyntheticFn, OrphanIds, Converted, ToAIMessage;
    OrphansMeanCalls(m, results);
    AssistantPair(c, calls, results, images, m);
    AssistantIds(c, m, results);
    SyntheticIsInterrupted(m, results);
    NoIds();
  }

  lemma NoIds()
    ensures FlatMap<Part, string>([], ResultIdOf) == []
  {
  }

  lemma AssistantPair(c: Codec, calls: set<string>, results: set<string>, images: bool, m: Stored)
    requires m.role == Assistant && m.parts != [] && ToolCalls(m) != []
    ensures |ToAIMessage(c, m)| == 1 && ToAIMessage(c, m)[0].role == Assistant
    ensures Converted(c, calls, results, images, m) == ToAIMessage(c, m) + SyntheticResults(m, results)
  {
    hide ToolCalls, FlatMap, FirstText, FirstReasoning, SyntheticFn, SyntheticResults, Trimmed;
    UnstrippedAssistant(c, m);
  }

  /** An assistant message with unanswered calls stands in the history with all its calls,
      and the tool message that answers them stands right after it. */
  lemma SyntheticResultsFollowTheirCalls(c: Codec, msgs: seq<Stored>, subAgent: bool, images: bool, k: nat)
    returns (i: nat)
    requires k < |msgs| && msgs[k].role == Assistant && OrphanIds(msgs[k], KnownResults(msgs)) != []
    ensures var h := History(c, msgs, subAgent, images);
      i + 1 < |h| && AnsweredBy(msgs[k], KnownResults(msgs), h[i], h[i + 1])
  {
    hide Converted, KnownCalls, KnownResults, OrphanIds, AnsweredBy, Reminder;
    var f := ConvertedFn(c, KnownCalls(msgs), KnownResults(msgs), images);
    FlatMapSplit(msgs, k, f);
    OrphansAreAnswered(c, KnownCalls(msgs), KnownResults(msgs), images, msgs[k]);
    i := |Reminder(subAgent)| + |FlatMap(msgs[..k], f)|;
  }

  /** The parts that carry a result which some tool message holds. */
  function RealResult(results: set<string>): Part -> seq<Part> {
    (p: Part) => if p.ResultPart? && p.callID in results then [p] else []
  }

  /** The stored results that have a call. */
  function AnsweringFn(c: Codec, calls: set<string>): Stored -> seq<Part> {
    (m: Stored) => if m.role == Tool then FlatMap(m.parts, AnswerFn(c, calls)) else []
  }

  function AnswerFn(c: Codec, calls: set<string>): StoredPart -> seq<Part> {
    (p: StoredPart) =>
      if p.ToolResult? && p.callID in calls then [ResultPart(p.callID, OutputOf(c, p), "")] else []
  }

  lemma AnswersBrought(c: Codec, calls: set<string>, results: set<string>, images: bool, m: Stored)
    requires m.role == Tool ==> forall p | p in m.parts && p.ToolResult? :: p.callID in results
    ensures Brought(c, calls, results, images, RealResult(results), m) == AnsweringFn(c, calls)(m)
  {
    var g := RealResult(results);
    match m.role
    case User => NothingViaFile(m.parts, g);
    case Assistant =>
      forall p | p in m.parts ensures ViaCall(g)(p) == [] && ViaSynthetic(results, g)(p) == [] {
        OneOrNone(CallPartOf(p), g);
        OneOrNone(SyntheticFn(results)(p), g);
      }
      FlatMapNone(m.parts, ViaCall(g));
      FlatMapNone(m.parts, ViaSynthetic(results, g));
    case Tool => FlatMapSame(m.parts, ViaResult(c, calls, g), AnswerFn(c, calls));
    case System =>
  }

  /** No result is lost: those with a call are in the history, all of them, each with its
      content, in their order; only results without a call are dropped. */
  lemma NoAnswerIsLost(c: Codec, msgs: seq<Stored>, subAgent: bool, images: bool)
    ensures Picked(History(c, msgs, subAgent, images), RealResult(KnownResults(msgs)))
         == FlatMap(msgs, AnsweringFn(c, KnownCalls(msgs)))
  {
    hide Brought, KnownCalls, KnownResults, History;
    var calls, results := KnownCalls(msgs), KnownResults(msgs);
    var g := RealResult(results);
    HistoryBrings(c, msgs, subAgent, images, g);
    forall m | m in msgs ensures BroughtFn(c, calls, results, images, g)(m) == AnsweringFn(c, calls)(m) {
      forall p | m.role == Tool && p in m.parts && p.ToolResult? ensures p.callID in results {
        KnownResultIn(msgs, p.callID);
      }
      AnswersBrought(c, calls, results, images, m);
    }
    FlatMapSame(msgs, BroughtFn(c, calls, results, images, g), AnsweringFn(c, calls));
  }

  function UserFilesFn(images: bool): Stored -> seq<Part> {
    (m: Stored) => if m.role == User && images then FlatMap(m.parts, FileOf) else []
  }

  lemma FilesBrought(c: Codec, calls: set<string>, results: set<string>, images: bool, m: Stored)
    ensures Brought(c, calls, results, images, FileIn, m) == UserFilesFn(images)(m)
  {
    match m.role
    case User =>
      forall p | p in m.parts ensures ViaFile(FileIn)(p) == FileOf(p) { OneOrNone(FileOf(p), FileIn); }
      FlatMapSame(m.parts, ViaFile(FileIn), FileOf);
    case Assistant =>
      forall p | p in m.parts ensures ViaCall(FileIn)(p) == [] && ViaSynthetic(results, FileIn)(p) == [] {
        OneOrNone(CallPartOf(p), FileIn);
        OneOrNone(SyntheticFn(results)(p), FileIn);
      }
      FlatMapNone(m.parts, ViaCall(FileIn));
      FlatMapNone(m.parts, ViaSynthetic(results, FileIn));
    case Tool =>
      forall p | p in m.parts ensures ViaResult(c, calls, FileIn)(p) == [] {
        if p.ToolResult? { assert FileIn(ResultPart(p.callID, OutputOf(c, p), "")) == []; }
      }
      FlatMapNone(m.parts, ViaResult(c, calls, FileIn));
    case System =>
  }

  /** A model that takes images gets every non-text file of the user, in order; one that does
      not gets none. */
  lemma UserFilesFollowTheModel(c: Codec, msgs: seq<Stored>, subAgent: bool, images: bool)
    ensures Files(History(c, msgs, subAgent, images)) == FlatMap(msgs, UserFilesFn(images))
    ensures !images ==> Files(History(c, msgs, subAgent, images)) == []
  {
    hide Brought, KnownCalls, KnownResults, History;
    var calls, results := KnownCalls(msgs), KnownResults(msgs);
    HistoryBrings(c, msgs, subAgent, images, FileIn);
    forall m | m in msgs ensures BroughtFn(c, calls, results, images, FileIn)(m) == UserFilesFn(images)(m) {
      FilesBrought(c, calls, results, images, m);
    }
    FlatMapSame(msgs, BroughtFn(c, calls, results, images, FileIn), UserFilesFn(images));
    if !images { FlatMapNone(msgs, UserFilesFn(images)); }
  }
}
