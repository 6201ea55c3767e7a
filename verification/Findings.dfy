/** One concrete run for each behaviour that README.md lists under Findings. */
module Findings {
  import opened Common
  import A = AgentState
  import B = BackendProtocol
  import C = Conversation
  import D = DispatchProtocol
  import M = MediaTheorems
  import R = TokenRefresh
  import T = TokenProtocol

  // ------------------------------------------------------------- a prompt without an event

  /** A run in which the only prompt, with RunID "R", is cancelled before Run and ends without
      any RunComplete. */
  lemma PromptWithoutEvent() returns (ws: seq<D.World>, es: seq<D.Event>)
    ensures D.IsRun(ws, es)
    ensures 0 in ws[|es|].chains && ws[|es|].chains[0].phase.Gone? && ws[|es|].chains[0].runID == "R"
    ensures ws[|es|].published == multiset{}
  {
    var w1 := D.Step(D.START, D.Accept(0, "s", "R"));
    var w2 := D.Step(w1, D.FailBeforeRun(0, true));
    var w3 := D.Step(w2, D.CoordinatorReturns(0));
    var w4 := D.Step(w3, D.BackendReturns(0));
    var w5 := D.Step(w4, D.ReleaseHandle(0));
    ws := [D.START, w1, w2, w3, w4, w5];
    es := [D.Accept(0, "s", "R"), D.FailBeforeRun(0, true), D.CoordinatorReturns(0), D.BackendReturns(0),
           D.ReleaseHandle(0)];
  }

  /** The same when it is started in-process and fails before Run. */
  lemma InProcessWithoutEvent() returns (ws: seq<D.World>, es: seq<D.Event>)
    ensures D.IsRun(ws, es)
    ensures 0 in ws[|es|].chains && ws[|es|].chains[0].phase.Gone? && ws[|es|].chains[0].runID == "R"
    ensures ws[|es|].published == multiset{}
  {
    var w1 := D.Step(D.START, D.SubmitLocal(0, "s", "R"));
    var w2 := D.Step(w1, D.FailBeforeRun(0, false));
    var w3 := D.Step(w2, D.CoordinatorReturns(0));
    var w4 := D.Step(w3, D.BackendReturns(0));
    ws := [D.START, w1, w2, w3, w4];
    es := [D.SubmitLocal(0, "s", "R"), D.FailBeforeRun(0, false), D.CoordinatorReturns(0), D.BackendReturns(0)];
  }

  /** `ws` goes on from where it starts. */
  ghost predicate Goes(ws: seq<D.World>, es: seq<D.Event>) {
    && |ws| == |es| + 1
    && forall i | 0 <= i < |es| :: D.Enabled(ws[i], es[i]) && ws[i + 1] == D.Step(ws[i], es[i])
  }

  const FIRST := A.Call(0, "s", "", true, Some(1), 0)
  const SECOND := A.Call(1, "s", "R", true, Some(2), 0)

  /** The first prompt's goroutine is at `first`, the second prompt, with RunID "R", waits
      behind it, and what is left of its goroutine is at `second`. */
  ghost predicate Behind(w: D.World, first: D.Phase, second: D.Phase) {
    && w.chains == map[
         0 := D.Chain("s", "", true, Some(1), first, None, false, [0]),
         1 := D.Chain("s", "R", true, Some(2), second, None, false, [])]
    && w.agent.active == (if first.Streaming? then map["s" := 0] else map[])
    && w.agent.queue == map["s" := [A.QueuedForm(SECOND)]] && w.agent.mark == map[]
    && w.agent.open == map[] && w.cancels == map[] && w.published == multiset{}
  }

  ghost predicate FirstStreaming(w: D.World) {
    && w.chains == map[0 := D.Chain("s", "", true, Some(1), D.Streaming(FIRST, 0), None, false, [0])]
    && w.agent == A.Agent(map[], map["s" := 0], map[], map[], 1, map[], {})
    && w.cancels == map[] && w.published == multiset{}
  }

  /** The second prompt was handed off to the goroutine of the first. */
  ghost predicate SecondDequeued(w: D.World) {
    && 0 in w.chains && w.chains[0].session == "s"
    && w.chains[0].phase == D.HandedOff(A.QueuedForm(SECOND).(accepted := Some(w.agent.gen)))
    && 1 in w.chains && w.chains[1].phase.Gone? && w.chains[1].runID == "R"
    && w.agent.active == map[] && w.agent.mark == map[] && w.cancels == map[] && w.published == multiset{}
  }

  lemma FirstStreams() returns (ws: seq<D.World>, es: seq<D.Event>)
    ensures D.IsRun(ws, es) && FirstStreaming(ws[|es|])
  {
    var w1 := D.Step(D.START, D.Accept(0, "s", ""));
    var w2 := D.Step(w1, D.Enter(0, false));
    var w3 := D.Step(w2, D.LookupsDone(0));
    assert [] + [0] == [0];
    ws, es := [D.START, w1, w2, w3], [D.Accept(0, "s", ""), D.Enter(0, false), D.LookupsDone(0)];
  }

  lemma SecondWaits(w: D.World) returns (ws: seq<D.World>, es: seq<D.Event>)
    requires FirstStreaming(w)
    ensures Goes(ws, es) && ws[0] == w && Behind(ws[|es|], D.Streaming(FIRST, 0), D.Unwinding(D.Ok))
  {
    hide D.StepHandOff, D.StepDrain, D.StepCancelFinish, D.StepClearQueued, D.StepFailBeforeRun;
    var w1 := D.Step(w, D.Accept(1, "s", "R"));
    var w2 := D.Step(w1, D.Enter(1, false));
    assert [] + [A.QueuedForm(SECOND)] == [A.QueuedForm(SECOND)];
    ws, es := [w, w1, w2], [D.Accept(1, "s", "R"), D.Enter(1, false)];
  }

  lemma SecondReturns(w: D.World) returns (ws: seq<D.World>, es: seq<D.Event>)
    requires Behind(w, D.Streaming(FIRST, 0), D.Unwinding(D.Ok))
    ensures Goes(ws, es) && ws[0] == w && Behind(ws[|es|], D.Streaming(FIRST, 0), D.Gone)
  {
    var w1 := D.Step(w, D.CoordinatorReturns(1));
    var w2 := D.Step(w1, D.BackendReturns(1));
    var w3 := D.Step(w2, D.ReleaseHandle(1));
    ws, es := [w, w1, w2, w3], [D.CoordinatorReturns(1), D.BackendReturns(1), D.ReleaseHandle(1)];
  }

  lemma FirstCompletes(w: D.World)
    requires Behind(w, D.Streaming(FIRST, 0), D.Gone)
    ensures D.Enabled(w, D.CompletionDel(0)) && Behind(D.Step(w, D.CompletionDel(0)), D.Completing(FIRST), D.Gone)
  {
  }

  lemma FirstHandsOff(w: D.World)
    requires Behind(w, D.Completing(FIRST), D.Gone)
    ensures D.Enabled(w, D.HandOff(0)) && SecondDequeued(D.Step(w, D.HandOff(0)))
  {
  }

  lemma SecondIsLost(w: D.World) returns (ws: seq<D.World>, es: seq<D.Event>)
    requires SecondDequeued(w)
    ensures Goes(ws, es) && ws[0] == w && ws[|es|].published == multiset{}
    ensures 1 in ws[|es|].places && ws[|es|].places[1] == D.Finished(D.Lost)
    ensures 1 in ws[|es|].chains && ws[|es|].chains[1].phase.Gone? && ws[|es|].chains[1].runID == "R"
  {
    var w1 := D.Step(w, D.Enter(0, false));
    var w2 := D.Step(w1, D.LookupFails(0, false));
    ws, es := [w, w1, w2], [D.Enter(0, false), D.LookupFails(0, false)];
  }

  /** A run in which a queued prompt with RunID "R" is handed off and its session lookup then
      fails: no RunComplete goes out for it. */
  lemma HandedOffWithoutEvent() returns (ws: seq<D.World>, es: seq<D.Event>)
    ensures D.IsRun(ws, es)
    ensures 1 in ws[|es|].places && ws[|es|].places[1] == D.Finished(D.Lost)
    ensures 1 in ws[|es|].chains && ws[|es|].chains[1].phase.Gone? && ws[|es|].chains[1].runID == "R"
    ensures ws[|es|].published == multiset{}
  {
    hide D.Step, D.Enabled, Behind, FirstStreaming, SecondDequeued;
    ws, es := FirstStreams();
    var ws', es' := SecondWaits(ws[|es|]);
    ws, es := Joined(ws, es, ws', es');
    ws', es' := SecondReturns(ws[|es|]);
    ws, es := Joined(ws, es, ws', es');
    FirstCompletes(ws[|es|]);
    ws, es := Then(ws, es, D.CompletionDel(0));
    FirstHandsOff(ws[|es|]);
    ws, es := Then(ws, es, D.HandOff(0));
    ws', es' := SecondIsLost(ws[|es|]);
    ws, es := Joined(ws, es, ws', es');
  }

  lemma Then(ws: seq<D.World>, es: seq<D.Event>, e: D.Event) returns (ws': seq<D.World>, es': seq<D.Event>)
    requires Goes(ws, es) && D.Enabled(ws[|es|], e)
    ensures Goes(ws', es') && ws'[0] == ws[0] && ws'[|es'|] == D.Step(ws[|es|], e)
  {
    hide D.Step, D.Enabled;
    ws', es' := ws + [D.Step(ws[|es|], e)], es + [e];
  }

  lemma Joined(ws: seq<D.World>, es: seq<D.Event>, ws1: seq<D.World>, es1: seq<D.Event>)
    returns (ws': seq<D.World>, es': seq<D.Event>)
    requires Goes(ws, es) && Goes(ws1, es1) && ws1[0] == ws[|es|]
    ensures Goes(ws', es') && ws'[0] == ws[0] && ws'[|es'|] == ws1[|es1|]
  {
    hide D.Step, D.Enabled;
    ws', es' := ws + ws1[1..], es + es1;
  }

  // ---------------------------------------------------------------- the latch during a create

  /** A run in which the latch flips while a create is in its slow init, and the create then
      registers nothing. */
  lemma LatchDuringCreate(hook: bool) returns (ws: seq<B.World>, es: seq<B.Event>)
    ensures B.IsRun(hook, ws, es) && |es| == 3
    ensures ws[1].creates == map[0 := B.Create("c", "p", [], false)] && !ws[1].b.closing
    ensures ws[2].creates == ws[1].creates && ws[2].b.closing
    ensures es[2] == B.CreateFinishes(0) && ws[3].b.spaces == map[] && ws[3].b.live == {}
  {
    var w0 := B.Start(hook);
    var e0, e1, e2 := B.CreateBegins(0, "c", "p", []), B.ShutdownNow, B.CreateFinishes(0);
    var w1 := B.Step(w0, e0);
    var w2 := B.Step(w1, e1);
    var w3 := B.Step(w2, e2);
    ws, es := [w0, w1, w2, w3], [e0, e1, e2];
  }

  // ----------------------------------------------------------------- rotated tokens presented

  const DISK := R.Token("D", "d", 100, 1000)
  const STALE := R.Token("S", "s", 100, 500)
  const LOGIN := R.Token("L", "l", 100, 400)

  /** Process 0 has the token on disk, process 1 has `other`. */
  function Two(other: R.Token): T.World {
    T.World(map[0 := T.Process(DISK, T.Idle), 1 := T.Process(other, T.Idle)],
            Some(DISK), None, {"d"}, {"d", "s"}, {"D", "S"}, 0, false)
  }

  lemma TwoIsStartable(other: R.Token)
    requires other == DISK || other == STALE
    ensures T.Startable(Two(other))
  {
    var w := Two(other);
    forall t | T.Held(w, t) ensures t == DISK || t == STALE {
      if w.disk != Some(t) { var p :| T.Has(w, p, t); }
    }
  }

  /** Process 0 logs in with a token that expires before the stale one of process 1. */
  lemma EarlyLogin() returns (ws: seq<T.World>, es: seq<T.Event>)
    ensures T.Startable(Two(STALE)) && T.Enabled(Two(STALE), T.Login(0, LOGIN, true)) && T.Fresh(Two(STALE), LOGIN)
    ensures T.Continues(T.Step(Two(STALE), T.Login(0, LOGIN, true)), ws, es) && ws[|es|].reused
  {
    TwoIsStartable(STALE);
    var w1 := T.Step(Two(STALE), T.Login(0, LOGIN, true));
    assert T.Doomed(w1, 1);
    ws, es := T.DoomedPresents(w1, 1);
  }

  const NEXT := R.Token("N", "n", 100, 2000)

  /** A run in which any write may fail. */
  ghost predicate Happens(ws: seq<T.World>, es: seq<T.Event>) {
    && |ws| == |es| + 1
    && forall i | 0 <= i < |es| :: T.Enabled(ws[i], es[i]) && ws[i + 1] == T.Step(ws[i], es[i])
  }

  /** What is left when process 0 exchanged the token on disk and its write failed. */
  function Unwritten(): T.World {
    T.World(map[0 := T.Process(NEXT, T.Idle), 1 := T.Process(DISK, T.Idle)],
            Some(DISK), None, {"n"}, {"d", "s", "n"}, {"D", "S", "N"}, 0, false)
  }

  /** Process 0 presents the token on disk. */
  function Presenting(): T.World {
    Two(DISK).(procs := map[0 := T.Process(DISK, T.Ready(DISK)), 1 := T.Process(DISK, T.Idle)], holder := Some(0))
  }

  lemma DiskIsPresented() returns (ws: seq<T.World>, es: seq<T.Event>)
    ensures Happens(ws, es) && ws[0] == Two(DISK) && ws[|es|] == Presenting()
    ensures es == [T.Starts(0), T.LockTaken(0), T.ReadsDisk(0)]
  {
    var w1 := T.Step(Two(DISK), T.Starts(0));
    var w2 := T.Step(w1, T.LockTaken(0));
    var w3 := T.Step(w2, T.ReadsDisk(0));
    ws, es := [Two(DISK), w1, w2, w3], [T.Starts(0), T.LockTaken(0), T.ReadsDisk(0)];
  }

  lemma WriteFails() returns (ws: seq<T.World>, es: seq<T.Event>)
    ensures Happens(ws, es) && ws[0] == Presenting() && ws[|es|] == Unwritten()
    ensures es == [T.Exchanges(0, Some(NEXT)), T.PersistFails(0)]
  {
    var w1 := T.Step(Presenting(), T.Exchanges(0, Some(NEXT)));
    var w2 := T.Step(w1, T.PersistFails(0));
    ws, es := [Presenting(), w1, w2], [T.Exchanges(0, Some(NEXT)), T.PersistFails(0)];
  }

  lemma PeerPresents() returns (ws: seq<T.World>, es: seq<T.Event>)
    ensures Happens(ws, es) && ws[0] == Unwritten() && ws[|es|].reused
    ensures es == [T.Starts(1), T.LockTaken(1), T.ReadsDisk(1), T.Exchanges(1, None)]
  {
    var w1 := T.Step(Unwritten(), T.Starts(1));
    var w2 := T.Step(w1, T.LockTaken(1));
    var w3 := T.Step(w2, T.ReadsDisk(1));
    var w4 := T.Step(w3, T.Exchanges(1, None));
    ws := [Unwritten(), w1, w2, w3, w4];
    es := [T.Starts(1), T.LockTaken(1), T.ReadsDisk(1), T.Exchanges(1, None)];
  }

  /** Process 0 exchanges the token on disk, its write fails, and process 1 presents the same
      token again. */
  lemma LostWrite() returns (ws: seq<T.World>, es: seq<T.Event>)
    ensures |ws| > 0 && T.Startable(ws[0]) && Happens(ws, es) && ws[|es|].reused
    ensures es == [T.Starts(0), T.LockTaken(0), T.ReadsDisk(0), T.Exchanges(0, Some(NEXT)), T.PersistFails(0),
                   T.Starts(1), T.LockTaken(1), T.ReadsDisk(1), T.Exchanges(1, None)]
  {
    hide T.Step, T.Enabled, Two, Presenting, Unwritten, T.Startable;
    TwoIsStartable(DISK);
    ws, es := DiskIsPresented();
    var ws', es' := WriteFails();
    ws, es := ws + ws'[1..], es + es';
    ws', es' := PeerPresents();
    ws, es := ws + ws'[1..], es + es';
  }

  // -------------------------------------------------------------------------- folded files

  /** A queued prompt with an image, folded into a turn of a text-only model: the image is sent. */
  lemma FoldedImage(c: C.Codec, model: C.Model) returns (folded: seq<C.Stored>)
    requires !model.images && !C.SupportsMedia(model)
    ensures M.Binaries(C.Workaround(c, model, M.StepMessages(c, [], false, false, [], folded))) != []
  {
    var image := C.BinaryContent("shot.png", "image/png", "data");
    folded := [C.Stored(C.User, [image])];
    assert "image/png"[0] != "text/"[0];
    assert image in folded[0].parts && M.CarriesFile(folded[0]);
    M.TextOnlyStepIsCleanUnlessFolded(c, model, [], false, [], folded);
  }
}
