/** runStream of internal/cmd/run.go: from server events to the stdout of `crush run`. A
    char stands for a byte. */
module RunStream {
  import opened Common

  datatype Event =
    | Message(session: string, id: string, assistant: bool, hasParts: bool, content: string)
    | RunComplete(session: string, runID: string, messageID: string, text: string, error: string, cancelled: bool)
    | AgentEvent(session: string, runID: string, failed: bool)
    | Other

  /** `space` says what strings.TrimSpace trims; `read` counts the bytes seen per message. */
  datatype Stream = Stream(
    sessionID: string, runID: string, space: char -> bool, read: map<string, nat>, printed: bool, out: string)

  datatype Error = ShorterThanRead | RunFailed | AgentFailed

  datatype Verdict = Verdict(done: bool, error: Option<Error>)

  const CONTINUE := Verdict(false, None)

  function TrimBlanks(s: string): string {
    if s != "" && (s[0] == ' ' || s[0] == '\t') then TrimBlanks(s[1..]) else s
  }

  predicate AllSpace(space: char -> bool, s: string) { forall i | 0 <= i < |s| :: space(s[i]) }

  /** Prints what lies beyond the bytes already read of a text. */
  function PrintRest(s: Stream, text: string, readBytes: nat): Stream
    requires readBytes <= |text|
  {
    var part := if readBytes == 0 then TrimBlanks(text) else text[readBytes..];
    if s.printed || !AllSpace(s.space, part) then s.(printed := true, out := s.out + part) else s
  }

  function Handle(s: Stream, e: Event): (Stream, Verdict) {
    match e
    case Message(session, id, assistant, hasParts, content) =>
      if session != s.sessionID || !assistant || !hasParts || s.runID != "" then (s, CONTINUE)
      else
        var readBytes := Lookup(s.read, id, 0);
        if |content| < readBytes then (s, Verdict(false, Some(ShorterThanRead)))
        else (PrintRest(s, content, readBytes).(read := s.read[id := |content|]), CONTINUE)
    case RunComplete(session, runID, messageID, text, error, cancelled) =>
      if (if s.runID != "" then runID != s.runID else session != s.sessionID) then (s, CONTINUE)
      else if error != "" && !cancelled then (s, Verdict(true, Some(RunFailed)))
      else
        var readBytes := Lookup(s.read, messageID, 0);
        if messageID != "" && readBytes < |text| then (PrintRest(s, text, readBytes), Verdict(true, None))
        else (s, Verdict(true, None))
    case AgentEvent(session, runID, failed) =>
      if !failed || (if runID != "" then runID != s.runID else session == "" || session != s.sessionID)
      then (s, CONTINUE)
      else (s, Verdict(true, Some(AgentFailed)))
    case Other => (s, CONTINUE)
  }

  /** The event loop: it ends at the first event that is final or fails; otherwise the
      verdict stays CONTINUE until the stream is closed. */
  function Watch(s: Stream, es: seq<Event>): (Stream, Verdict)
    decreases es
  {
    if es == [] then (s, CONTINUE)
    else
      var (s', v) := Handle(s, es[0]);
      if v == CONTINUE then Watch(s', es[1..]) else (s', v)
  }

  // ------------------------------------------------------------------ foreign events

  /** The event belongs to this run, as far as a stream with a RunID can tell. */
  predicate IsOwn(s: Stream, e: Event) {
    match e
    case RunComplete(_, runID, _, _, _, _) => runID == s.runID
    case AgentEvent(session, runID, failed) =>
      failed && (if runID != "" then runID == s.runID else session != "" && session == s.sessionID)
    case _ => false
  }

  function OwnEvents(s: Stream, es: seq<Event>): seq<Event> { Filter(es, (e: Event) => IsOwn(s, e)) }

  /** With a RunID, the result of any trace is the result of the run's own events alone:
      no other turn, session or request on the same channel can print, fail or end it. */
  lemma {:induction false} OnlyOwnEventsMatter(s: Stream, es: seq<Event>)
    requires s.runID != ""
    ensures Watch(s, es) == Watch(s, OwnEvents(s, es))
  {
    if es == [] {
    } else {
      var own := (e: Event) => IsOwn(s, e);
      if own(es[0]) {
        var rest := Filter(es[1..], own);
        assert Filter(es, own) == [es[0]] + rest;
        assert ([es[0]] + rest)[1..] == rest;
      } else {
        assert Filter(es, own) == Filter(es[1..], own);
        assert Handle(s, es[0]) == (s, CONTINUE);
        OnlyOwnEventsMatter(s, es[1..]);
      }
      if own(es[0]) { OwnEventEnds(s, es[0]); }
    }
  }

  lemma OwnEventEnds(s: Stream, e: Event)
    requires s.runID != "" && IsOwn(s, e)
    ensures Handle(s, e).1.done
  {
  }

  // ------------------------------------------------------------------------- the verdict

  /** The event ends this run: its RunComplete, or an agent error that is attributed to it. */
  predicate EndsRun(s: Stream, e: Event) {
    match e
    case RunComplete(session, runID, _, _, _, _) => if s.runID != "" then runID == s.runID else session == s.sessionID
    case AgentEvent(session, runID, failed) =>
      failed && (if runID != "" then runID == s.runID else session != "" && session == s.sessionID)
    case _ => false
  }

  /** A snapshot that a stream without a RunID follows. */
  predicate IsSnapshot(s: Stream, e: Event) {
    e.Message? && e.session == s.sessionID && e.assistant && e.hasParts && s.runID == ""
  }

  /** How much of message `id` was seen before event `i`: the length of its latest snapshot. */
  ghost function SeenBefore(s: Stream, es: seq<Event>, i: nat, id: string): nat
    requires i <= |es|
  {
    if i == 0 then Lookup(s.read, id, 0)
    else if IsSnapshot(s, es[i - 1]) && es[i - 1].id == id then |es[i - 1].content|
    else SeenBefore(s, es, i - 1, id)
  }

  ghost predicate Shrinks(s: Stream, es: seq<Event>, i: nat)
    requires i < |es|
  {
    IsSnapshot(s, es[i]) && |es[i].content| < SeenBefore(s, es, i, es[i].id)
  }

  ghost predicate Stops(s: Stream, es: seq<Event>, i: nat)
    requires i < |es|
  {
    EndsRun(s, es[i]) || Shrinks(s, es, i)
  }

  /** What the user is told: a RunComplete fails the command exactly if it carries an error and
      was not cancelled; an agent error and a shrinking message always fail it. */
  function TellsUser(e: Event): Verdict {
    match e
    case RunComplete(_, _, _, _, error, cancelled) =>
      Verdict(true, if error != "" && !cancelled then Some(RunFailed) else None)
    case AgentEvent(_, _, _) => Verdict(true, Some(AgentFailed))
    case _ => Verdict(false, Some(ShorterThanRead))
  }

  lemma HandleStops(s: Stream, es: seq<Event>)
    requires es != []
    ensures var (s', v) := Handle(s, es[0]);
      && s'.sessionID == s.sessionID && s'.runID == s.runID
      && (v == CONTINUE <==> !Stops(s, es, 0))
      && (Stops(s, es, 0) ==> v == TellsUser(es[0]) && (v.error.Some? ==> s' == s))
      && (!Stops(s, es, 0) ==> forall id :: Lookup(s'.read, id, 0) == SeenBefore(s, es, 1, id))
  {
  }

  lemma {:induction false} SeenLater(s: Stream, s': Stream, es: seq<Event>, i: nat, id: string)
    requires es != [] && i < |es| && s'.sessionID == s.sessionID && s'.runID == s.runID
    requires forall j :: Lookup(s'.read, j, 0) == SeenBefore(s, es, 1, j)
    ensures SeenBefore(s', es[1..], i, id) == SeenBefore(s, es, i + 1, id)
  {
    if i == 0 {
    } else {
      SeenLater(s, s', es, i - 1, id);
    }
  }

  lemma StopsLater(s: Stream, s': Stream, es: seq<Event>, i: nat)
    requires 0 < i < |es| && s'.sessionID == s.sessionID && s'.runID == s.runID
    requires forall j :: Lookup(s'.read, j, 0) == SeenBefore(s, es, 1, j)
    ensures Stops(s', es[1..], i - 1) <==> Stops(s, es, i)
  {
    if es[i].Message? { SeenLater(s, s', es, i - 1, es[i].id); }
  }

  /** The verdict, for every stream and every trace, in terms of the trace alone: the first event
      that ends the run or shrinks a message decides, and it prints nothing if it fails the
      command; without such an event the command goes on. */
  lemma {:induction false} FirstStopDecides(s: Stream, es: seq<Event>, i: nat)
    requires i <= |es| && (forall j | 0 <= j < i :: !Stops(s, es, j)) && (i < |es| ==> Stops(s, es, i))
    ensures var (s', v) := Watch(s, es);
      if i < |es| then v == TellsUser(es[i]) && (v.error.Some? ==> s' == Watch(s, es[..i]).0) else v == CONTINUE
    decreases es
  {
    if es == [] {
    } else {
      HandleStops(s, es);
      if i == 0 {
        assert es[..0] == [];
      } else {
        var s' := Handle(s, es[0]).0;
        forall j | 0 <= j < |es[1..]| ensures Stops(s', es[1..], j) <==> Stops(s, es, j + 1) {
          StopsLater(s, s', es, j + 1);
        }
        FirstStopDecides(s', es[1..], i - 1);
        assert es[..i][1..] == es[1..][..i - 1] && es[..i][0] == es[0];
      }
    }
  }

  // ---------------------------------------------------------------------- completeness

  lemma {:induction false} TrimmedBlanks(space: char -> bool, s: string)
    requires space(' ') && space('\t')
    ensures |TrimBlanks(s)| <= |s| && s[|s| - |TrimBlanks(s)|..] == TrimBlanks(s)
    ensures AllSpace(space, s[..|s| - |TrimBlanks(s)|])
  {
    if s == "" || (s[0] != ' ' && s[0] != '\t') {
    } else {
      TrimmedBlanks(space, s[1..]);
      var k := |s| - |TrimBlanks(s)|;
      assert s[..k] == [s[0]] + s[1..][..k - 1];
    }
  }

  /** Only leading blanks and tabs are trimmed, and all of them. */
  lemma {:induction false} TrimsLeadingBlanks(s: string)
    ensures var r := TrimBlanks(s);
      && |r| <= |s| && s[|s| - |r|..] == r && (r != "" ==> r[0] != ' ' && r[0] != '\t')
      && forall i | 0 <= i < |s| - |r| :: s[i] == ' ' || s[i] == '\t'
  {
    if s == "" || (s[0] != ' ' && s[0] != '\t') {
    } else {
      TrimsLeadingBlanks(s[1..]);
      var n := |s| - |TrimBlanks(s)|;
      forall i | 0 <= i < n ensures s[i] == ' ' || s[i] == '\t' {
        if i > 0 { assert s[i] == s[1..][i - 1]; }
      }
    }
  }

  /** `rest` is `text` without a prefix of white space. */
  predicate IsRest(space: char -> bool, text: string, rest: string) {
    && |rest| <= |text| && text[|text| - |rest|..] == rest
    && AllSpace(space, text[..|text| - |rest|])
  }

  /** What a write adds for one message, seen up to `before` and now up to `text`. */
  lemma RestGrows(s: Stream, before: string, text: string, written: string)
    requires s.space(' ') && s.space('\t') && before <= text && IsRest(s.space, before, written)
    requires !s.printed ==> AllSpace(s.space, before) && written == ""
    ensures var s' := PrintRest(s, text, |before|); var part := s'.out[|s.out|..];
      && |s'.out| >= |s.out| && s'.out == s.out + part && IsRest(s.space, text, written + part)
      && (s.printed ==> s'.printed)
      && (!s'.printed ==> part == "" && AllSpace(s.space, text))
  {
    var part := if |before| == 0 then TrimBlanks(text) else text[|before|..];
    assert text == before + text[|before|..];
    if |before| == 0 {
      TrimmedBlanks(s.space, text);
      assert written + part == part;
      assert text == text[..|text| - |part|] + part;
    } else {
      RestOfBoth(s.space, before, text[|before|..], written);
    }
    var s' := PrintRest(s, text, |before|);
    if s'.printed { assert s'.out[|s.out|..] == part; }
    if !s'.printed { assert written + "" == ""; assert text[..|text|] == text; }
  }

  lemma RestOfBoth(space: char -> bool, before: string, more: string, written: string)
    requires IsRest(space, before, written)
    ensures IsRest(space, before + more, written + more)
  {
    var k := |before| - |written|;
    assert (before + more)[k..] == written + more;
    assert (before + more)[..k] == before[..k];
  }

  /** What reached stdout since it held `base`: `text` without a prefix of white space, or
      nothing if all of it was white space that came first. */
  ghost predicate Shown(s: Stream, base: string, text: string) {
    && base <= s.out && IsRest(s.space, text, s.out[|base|..])
    && (!s.printed ==> s.out == base && AllSpace(s.space, text))
  }

  lemma RestShown(s: Stream, base: string, seen: string, text: string)
    requires s.space(' ') && s.space('\t') && seen <= text
    requires Shown(s, base, seen)
    ensures Shown(PrintRest(s, text, |seen|), base, text)
  {
    hide PrintRest, IsRest;
    var s' := PrintRest(s, text, |seen|);
    RestGrows(s, seen, text, s.out[|base|..]);
    SameFields(s, text, |seen|);
    assert s'.out[|base|..] == s.out[|base|..] + s'.out[|s.out|..];
  }

  lemma SameFields(s: Stream, text: string, readBytes: nat)
    requires readBytes <= |text|
    ensures var s' := PrintRest(s, text, readBytes);
      s'.read == s.read && s'.space == s.space && s'.sessionID == s.sessionID && s'.runID == s.runID
  {
  }

  /** Events that a stream without a RunID passes over. */
  predicate IsForeign(s: Stream, e: Event) {
    match e
    case Message(session, _, assistant, hasParts, _) => session != s.sessionID || !assistant || !hasParts
    case RunComplete(session, _, _, _, _, _) => session != s.sessionID
    case AgentEvent(session, runID, failed) => !failed || runID != "" || session == "" || session != s.sessionID
    case Other => true
  }

  /** A trace of growing snapshots of one message, from `seen` up to a prefix of `text`, with
      foreign events in between. */
  ghost predicate GrowsTo(s: Stream, es: seq<Event>, id: string, seen: string, text: string)
    decreases es
  {
    if es == [] then seen <= text
    else if IsForeign(s, es[0]) then GrowsTo(s, es[1..], id, seen, text)
    else
      es[0].Message? && es[0].id == id && seen <= es[0].content && GrowsTo(s, es[1..], id, es[0].content, text)
  }

  ghost predicate Ends(s: Stream, e: Event, id: string, text: string) {
    e.RunComplete? && e.session == s.sessionID && e.messageID == id && e.text == text && (e.error == "" || e.cancelled)
  }

  lemma {:induction false} GrowthIsShown(
      s: Stream, es: seq<Event>, end: Event, id: string, base: string, seen: string, text: string)
    requires s.runID == "" && s.space(' ') && s.space('\t') && id != ""
    requires GrowsTo(s, es, id, seen, text) && Ends(s, end, id, text)
    requires Lookup(s.read, id, 0) == |seen| && Shown(s, base, seen)
    ensures var (s', v) := Watch(s, es + [end]);
      v == Verdict(true, None) && Shown(s', base, text)
    decreases es
  {
    if es == [] {
      assert es + [end] == [end];
      if |seen| == |text| { assert seen == text; }
      RestShown(s, base, seen, text);
    } else {
      assert (es + [end])[0] == es[0] && (es + [end])[1..] == es[1..] + [end];
      var s' := Handle(s, es[0]).0;
      if IsForeign(s, es[0]) {
        assert Handle(s, es[0]) == (s, CONTINUE);
        GrowthIsShown(s, es[1..], end, id, base, seen, text);
      } else {
        RestShown(s, base, seen, es[0].content);
        SameIdentity(s', s, es[1..], id, es[0].content, text);
        GrowthIsShown(s', es[1..], end, id, base, es[0].content, text);
      }
    }
  }

  /** What is foreign depends only on the session and the RunID. */
  lemma {:induction false} SameIdentity(s': Stream, s: Stream, es: seq<Event>, id: string, seen: string, text: string)
    requires s'.sessionID == s.sessionID && s'.runID == s.runID
    ensures GrowsTo(s', es, id, seen, text) == GrowsTo(s, es, id, seen, text)
    decreases es
  {
    if es == [] {
    } else {
      SameIdentity(s', s, es[1..], id, seen, text);
      if es[0].Message? { SameIdentity(s', s, es[1..], id, es[0].content, text); }
    }
  }

  /** Without a RunID, whichever of its snapshots arrived before the end, the text of the
      final message reaches stdout completely and once, after what was there before; at most
      white space at its front is left out. */
  lemma StdoutIsComplete(s: Stream, es: seq<Event>, end: Event, id: string, text: string)
    requires s.runID == "" && s.space(' ') && s.space('\t') && id != "" && id !in s.read
    requires GrowsTo(s, es, id, "", text) && Ends(s, end, id, text)
    ensures var (s', v) := Watch(s, es + [end]);
      && v == Verdict(true, None)
      && exists k :: 0 <= k <= |text| && AllSpace(s'.space, text[..k]) && s'.out == s.out + text[k..]
  {
    GrowthIsShown(s, es, end, id, s.out, "", text);
    ShownMeans(Watch(s, es + [end]).0, s.out, text);
  }

  lemma ShownMeans(s: Stream, base: string, text: string)
    requires Shown(s, base, text)
    ensures exists k :: 0 <= k <= |text| && AllSpace(s.space, text[..k]) && s.out == base + text[k..]
  {
    var k := |text| - |s.out[|base|..]|;
    assert s.out == base + text[k..];
  }

  /** With a RunID nothing is printed before the end, and the end prints the whole text without
      its leading blanks and tabs, unless that is white space and nothing was printed before. */
  lemma StdoutWithRunID(s: Stream, es: seq<Event>, end: Event, id: string, text: string)
    requires s.runID != "" && s.space(' ') && s.space('\t') && id != "" && id !in s.read
    requires forall e | e in es :: !IsOwn(s, e)
    requires end.RunComplete? && end.runID == s.runID && end.messageID == id && end.text == text
    requires end.error == "" || end.cancelled
    ensures var (s', v) := Watch(s, es + [end]);
      && v == Verdict(true, None)
      && s'.out == s.out + (if s.printed || !AllSpace(s.space, TrimBlanks(text)) then TrimBlanks(text) else "")
      && exists k :: 0 <= k <= |text| && AllSpace(s'.space, text[..k]) && s'.out == s.out + text[k..]
  {
    var own := (e: Event) => IsOwn(s, e);
    OnlyOwnEventsMatter(s, es + [end]);
    FilterAppend(es, end, own);
    FilterNone(es, own);
    assert OwnEvents(s, es + [end]) == [end];
    assert Shown(s, s.out, "");
    RestShown(s, s.out, "", text);
    ShownMeans(Watch(s, es + [end]).0, s.out, text);
  }

  // ------------------------------------------------------------- turns of several messages

  /** One write to stdout, and the message it came from. */
  datatype Piece = Piece(id: string, text: string)

  function Joined(pieces: seq<Piece>): string {
    if pieces == [] then "" else Joined(pieces[..|pieces| - 1]) + pieces[|pieces| - 1].text
  }

  /** What was written for one message. */
  function WrittenFor(pieces: seq<Piece>, id: string): string {
    if pieces == [] then ""
    else
      WrittenFor(pieces[..|pieces| - 1], id)
      + if pieces[|pieces| - 1].id == id then pieces[|pieces| - 1].text else ""
  }

  lemma OnePieceMore(pieces: seq<Piece>, p: Piece)
    ensures Joined(pieces + [p]) == Joined(pieces) + p.text
    ensures forall id :: WrittenFor(pieces + [p], id) == WrittenFor(pieces, id) + if p.id == id then p.text else ""
  {
    assert (pieces + [p])[..|pieces + [p]| - 1] == pieces;
  }

  function Last(seen: map<string, string>, id: string): string { Lookup(seen, id, "") }

  /** The cursors are where the seen texts end. */
  ghost predicate CursorsFit(read: map<string, nat>, seen: map<string, string>) {
    forall id :: Lookup(read, id, 0) == |Last(seen, id)|
  }

  /** The pieces of each message make up what was seen of it, without white space at its front. */
  ghost predicate PiecesFit(space: char -> bool, seen: map<string, string>, pieces: seq<Piece>) {
    forall id :: IsRest(space, Last(seen, id), WrittenFor(pieces, id))
  }

  ghost predicate AllBlank(space: char -> bool, seen: map<string, string>) {
    forall id :: AllSpace(space, Last(seen, id))
  }

  /** Since stdout held `base`, it got these pieces, and none before something else than white
      space was seen. */
  ghost predicate Accounts(s: Stream, base: string, seen: map<string, string>, pieces: seq<Piece>) {
    && s.out == base + Joined(pieces)
    && CursorsFit(s.read, seen) && PiecesFit(s.space, seen, pieces)
    && (!s.printed ==> pieces == [] && AllBlank(s.space, seen))
  }

  lemma CursorMoved(read: map<string, nat>, seen: map<string, string>, id: string, text: string)
    requires CursorsFit(read, seen)
    ensures CursorsFit(read[id := |text|], seen[id := text])
  {
    var read', seen' := read[id := |text|], seen[id := text];
    forall j ensures Lookup(read', j, 0) == |Last(seen', j)| {
      assert Lookup(read, j, 0) == |Last(seen, j)|;
    }
  }

  lemma StaysBlank(space: char -> bool, seen: map<string, string>, id: string, text: string)
    requires AllBlank(space, seen) && AllSpace(space, text)
    ensures AllBlank(space, seen[id := text])
  {
    hide AllSpace;
    var seen' := seen[id := text];
    forall j ensures AllSpace(space, Last(seen', j)) {
      assert AllSpace(space, Last(seen, j));
    }
  }

  lemma PieceAdded(
      space: char -> bool, seen: map<string, string>, pieces: seq<Piece>, id: string, text: string, part: string)
    requires PiecesFit(space, seen, pieces) && IsRest(space, text, WrittenFor(pieces, id) + part)
    ensures PiecesFit(space, seen[id := text], pieces + [Piece(id, part)])
  {
    hide IsRest, WrittenFor;
    OnePieceMore(pieces, Piece(id, part));
    forall j ensures IsRest(space, Last(seen[id := text], j), WrittenFor(pieces + [Piece(id, part)], j)) {
      if j != id { assert WrittenFor(pieces, j) + "" == WrittenFor(pieces, j); }
    }
  }

  lemma NoPieceAdded(space: char -> bool, seen: map<string, string>, pieces: seq<Piece>, id: string, text: string)
    requires PiecesFit(space, seen, pieces) && IsRest(space, text, WrittenFor(pieces, id))
    ensures PiecesFit(space, seen[id := text], pieces)
  {
    hide IsRest, WrittenFor;
  }

  lemma SnapshotAccounted(
      s: Stream, base: string, seen: map<string, string>, pieces: seq<Piece>, id: string, text: string)
    returns (pieces': seq<Piece>)
    requires s.space(' ') && s.space('\t') && Accounts(s, base, seen, pieces)
    requires Lookup(s.read, id, 0) == |Last(seen, id)| && Last(seen, id) <= text
    ensures Accounts(
      PrintRest(s, text, |Last(seen, id)|).(read := s.read[id := |text|]), base, seen[id := text], pieces')
  {
    AtId(s, seen, pieces, id);
    hide PrintRest, IsRest, AllSpace, WrittenFor, Last, CursorsFit, PiecesFit, AllBlank;
    var s' := PrintRest(s, text, |Last(seen, id)|);
    RestGrows(s, Last(seen, id), text, WrittenFor(pieces, id));
    SameFields(s, text, |Last(seen, id)|);
    CursorMoved(s.read, seen, id, text);
    var part := s'.out[|s.out|..];
    if s'.printed {
      pieces' := pieces + [Piece(id, part)];
      PieceAdded(s.space, seen, pieces, id, text, part);
      OnePieceMore(pieces, Piece(id, part));
      assert base + Joined(pieces) + part == base + (Joined(pieces) + part);
    } else {
      pieces' := pieces;
      assert s.out + part == s.out && WrittenFor(pieces, id) + part == WrittenFor(pieces, id);
      NoPieceAdded(s.space, seen, pieces, id, text);
      StaysBlank(s.space, seen, id, text);
    }
  }

  lemma AtId(s: Stream, seen: map<string, string>, pieces: seq<Piece>, id: string)
    requires PiecesFit(s.space, seen, pieces) && (!s.printed ==> pieces == [] && AllBlank(s.space, seen))
    ensures IsRest(s.space, Last(seen, id), WrittenFor(pieces, id))
    ensures !s.printed ==> AllSpace(s.space, Last(seen, id)) && WrittenFor(pieces, id) == ""
  {
  }

  /** A trace of growing snapshots of any number of messages, in any interleaving and with
      foreign events in between; `seen` is what was seen of each before. */
  ghost predicate AllGrow(s: Stream, es: seq<Event>, seen: map<string, string>)
    decreases es
  {
    if es == [] then true
    else if IsForeign(s, es[0]) then AllGrow(s, es[1..], seen)
    else
      && es[0].Message? && Last(seen, es[0].id) <= es[0].content
      && AllGrow(s, es[1..], seen[es[0].id := es[0].content])
  }

  /** The last snapshot of each message in such a trace. */
  ghost function SeenAfter(s: Stream, es: seq<Event>, seen: map<string, string>): map<string, string>
    decreases es
  {
    if es == [] then seen
    else if es[0].Message? && !IsForeign(s, es[0]) then SeenAfter(s, es[1..], seen[es[0].id := es[0].content])
    else SeenAfter(s, es[1..], seen)
  }

  lemma {:induction false} SameGrowth(s': Stream, s: Stream, es: seq<Event>, seen: map<string, string>)
    requires s'.sessionID == s.sessionID && s'.runID == s.runID
    ensures AllGrow(s', es, seen) == AllGrow(s, es, seen) && SeenAfter(s', es, seen) == SeenAfter(s, es, seen)
    decreases es
  {
    if es == [] {
    } else {
      SameGrowth(s', s, es[1..], seen);
      if es[0].Message? { SameGrowth(s', s, es[1..], seen[es[0].id := es[0].content]); }
    }
  }

  lemma {:induction false} TurnIsAccounted(
      s: Stream, es: seq<Event>, end: Event, id: string, text: string,
      base: string, seen: map<string, string>, pieces: seq<Piece>)
    returns (pieces': seq<Piece>)
    requires s.runID == "" && s.space(' ') && s.space('\t') && id != ""
    requires AllGrow(s, es, seen) && Ends(s, end, id, text) && Last(SeenAfter(s, es, seen), id) <= text
    requires Accounts(s, base, seen, pieces)
    ensures var (s', v) := Watch(s, es + [end]);
      && v == Verdict(true, None) && s'.out == base + Joined(pieces') && s'.space == s.space
      && PiecesFit(s.space, SeenAfter(s, es, seen)[id := text], pieces')
    decreases es
  {
    if es == [] {
      assert es + [end] == [end];
      pieces' := SnapshotAccounted(s, base, seen, pieces, id, text);
      SameFields(s, text, |Last(seen, id)|);
      NothingNew(s, text);
    } else {
      assert (es + [end])[0] == es[0] && (es + [end])[1..] == es[1..] + [end];
      var s' := Handle(s, es[0]).0;
      if IsForeign(s, es[0]) {
        assert Handle(s, es[0]) == (s, CONTINUE);
        pieces' := TurnIsAccounted(s, es[1..], end, id, text, base, seen, pieces);
      } else {
        var first, content := es[0].id, es[0].content;
        pieces' := SnapshotAccounted(s, base, seen, pieces, first, content);
        SameFields(s, content, |Last(seen, first)|);
        SameGrowth(s', s, es[1..], seen[first := content]);
        pieces' := TurnIsAccounted(s', es[1..], end, id, text, base, seen[first := content], pieces');
      }
    }
  }

  /** Nothing is printed when all of a text was read already. */
  lemma NothingNew(s: Stream, text: string)
    ensures PrintRest(s, text, |text|).out == s.out
  {
    assert text == "" ==> TrimBlanks(text) == "";
    assert s.out + "" == s.out;
  }

  /** Without a RunID, for any number of messages whose growing snapshots interleave, as in a
      turn with tool steps: stdout is a sequence of pieces, those of each message make up its
      last snapshot, and those of the message that the RunComplete names its full text, each
      without a prefix of white space. */
  lemma StdoutOfManyMessages(s: Stream, es: seq<Event>, end: Event, id: string, text: string)
    returns (pieces: seq<Piece>)
    requires s.runID == "" && s.space(' ') && s.space('\t') && id != "" && s.read == map[]
    requires AllGrow(s, es, map[]) && Ends(s, end, id, text) && Last(SeenAfter(s, es, map[]), id) <= text
    ensures var (s', v) := Watch(s, es + [end]); var seen := SeenAfter(s, es, map[])[id := text];
      && v == Verdict(true, None) && s'.out == s.out + Joined(pieces)
      && forall j :: IsRest(s.space, Last(seen, j), WrittenFor(pieces, j))
  {
    assert s.out + "" == s.out;
    pieces := TurnIsAccounted(s, es, end, id, text, s.out, map[], []);
  }

  // -------------------------------------------------------------------------- the object

  class RunStreamState {
    const sessionID: string
    const runID: string
    const space: char -> bool
    var read: map<string, nat>
    var printed: bool
    var out: string

    ghost function State(): Stream
      reads this
    {
      Stream(sessionID, runID, space, read, printed, out)
    }

    constructor (sessionID: string, runID: string, space: char -> bool)
      ensures State() == Stream(sessionID, runID, space, map[], false, "")
    {
      this.sessionID, this.runID, this.space := sessionID, runID, space;
      read, printed, out := map[], false, "";
    }

    method Print(part: string)
      modifies this`printed, this`out
      ensures printed == (old(printed) || !AllSpace(space, part))
      ensures out == if printed then old(out) + part else old(out)
    {
      if printed || !AllSpace(space, part) {
        printed := true;
        out := out + part;
      }
    }

    method HandleEvent(e: Event) returns (verdict: Verdict)
      modifies this
      ensures (State(), verdict) == Handle(old(State()), e)
      ensures EndsRun(old(State()), e) ==> verdict == TellsUser(e) && (verdict.error.Some? ==> out == old(out))
    {
      verdict := CONTINUE;
      match e {
        case Message(session, id, assistant, hasParts, content) =>
          if session != sessionID || !assistant || !hasParts { return; }
          if runID != "" { return; }
          var readBytes := Lookup(read, id, 0);
          if |content| < readBytes { return Verdict(false, Some(ShorterThanRead)); }
          var part := content[readBytes..];
          if readBytes == 0 { part := TrimBlanks(part); }
          Print(part);
          read := read[id := |content|];
        case RunComplete(session, rid, messageID, text, error, cancelled) =>
          if runID != "" {
            if rid != runID { return; }
          } else if session != sessionID {
            return;
          }
          if error != "" && !cancelled { return Verdict(true, Some(RunFailed)); }
          if messageID != "" {
            var readBytes := Lookup(read, messageID, 0);
            if readBytes < |text| {
              var tail := text[readBytes..];
              if readBytes == 0 { tail := TrimBlanks(tail); }
              Print(tail);
            }
          }
          return Verdict(true, None);
        case AgentEvent(session, rid, failed) =>
          if !failed { return; }
          if rid != "" {
            if rid != runID { return; }
          } else if session == "" || session != sessionID {
            return;
          }
          return Verdict(true, Some(AgentFailed));
        case Other =>
      }
    }
  }
}
