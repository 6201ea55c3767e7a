/** The dispatch protocol as a state machine: every lock section of sessionAgent that a
    prompt passes through is one atomic step, interleaved freely with those of every other
    prompt, with Cancel, and with what coordinator.run and backend.runAgent do around it. */
module DispatchProtocol {
  import opened Common
  import opened AgentState

  datatype Outcome = Ok | Failed | Stopped

  /** Where the goroutine that carries a prompt is. One goroutine runs a chain of turns:
      the prompt it was started for, then every prompt handed off to it. */
  datatype Phase =
    | Dispatched(call: Call)              // before Run's lock section
    | HandedOff(call: Call)               // dequeued, before the recursive Run's lock section
    | Starting(call: Call, run: nat)      // registered, before the RunComplete defer is installed
    | Streaming(call: Call, run: nat)
    | Completing(call: Call)              // activeRequests entry deleted, before the handoff section
    | Unwinding(outcome: Outcome)         // Run returned; deferred cleanups still pending
    | Coordinated(outcome: Outcome)       // coordinator.run returned
    | Closing                             // runAgent's body returned; accept.Close still pending
    | Gone

  /** A goroutine. It is named after the prompt it was started for; `runID` and `session`
      are that prompt's. `latest` is the payload buffered by the coordinator's OnComplete,
      `marked` the run-complete marker, and `cleanups` the activeCancel identities that the
      nested Runs still have to CompareAndDelete, innermost last. */
  datatype Chain = Chain(
    session: string, runID: string, backend: bool, handle: Option<nat>,
    phase: Phase, latest: Option<nat>, marked: bool, cleanups: seq<nat>)

  /** How a prompt ended: no event is owed (no RunID); the backend fallback owes it; the
      coordinator holds it; it is out; it is lost; the caller was told synchronously. */
  datatype Fate = Silent | Owed(chain: nat) | Buffered(chain: nat) | Published | Lost | Refused

  datatype Place = Pending(at: nat) | Waiting | Running(at: nat) | Finished(fate: Fate)

  /** `cancels` holds the sessions inside Cancel, between its acceptedMu section and the
      mark update: their dispatch mutex is taken. The last four fields are history: who
      took which handle, which goroutine created which activeCancel, where every prompt
      is, and how often a RunComplete went out for each prompt. */
  datatype World = World(
    agent: Agent, chains: map<nat, Chain>, cancels: map<string, CancelRead>,
    holder: map<nat, nat>, runOwner: seq<nat>, places: map<nat, Place>, published: multiset<nat>)

  const START := World(NEW_AGENT, map[], map[], map[], [], map[], multiset{})

  datatype Event =
    | Accept(prompt: nat, session: string, runID: string)
    | SubmitLocal(prompt: nat, session: string, runID: string)
    | Refuse(chain: nat)
    | FailBeforeRun(chain: nat, stopped: bool)
    | Enter(chain: nat, persistFails: bool)
    | LookupFails(chain: nat, stopped: bool)
    | LookupsDone(chain: nat)
    | DrainStep(chain: nat)
    | StreamFails(chain: nat, stopped: bool)
    | CompletionDel(chain: nat)
    | HandOff(chain: nat)
    | Cleanup(chain: nat)
    | CoordinatorReturns(chain: nat)
    | BackendReturns(chain: nat)
    | ReleaseHandle(chain: nat)
    | CancelStart(session: string)
    | CancelFinish(session: string)
    | ClearQueued(session: string)

  // ------------------------------------------------------------------ shorthands

  predicate HasCall(ph: Phase) {
    ph.Dispatched? || ph.HandedOff? || ph.Starting? || ph.Streaming? || ph.Completing?
  }

  predicate BeforeEntry(ph: Phase) { ph.Dispatched? || ph.HandedOff? }

  predicate Registered(ph: Phase) { ph.Starting? || ph.Streaming? }

  predicate Unlocked(w: World, c: nat)
    requires c in w.chains
  {
    w.chains[c].session !in w.cancels
  }

  function Prompts(calls: seq<Call>): set<nat> { set c | c in calls :: c.prompt }

  /** One published event per call, in list order. */
  function EventsFor(calls: seq<Call>): multiset<nat> {
    if calls == [] then multiset{} else multiset{calls[0].prompt} + EventsFor(calls[1..])
  }

  function WithPhase(w: World, c: nat, ph: Phase): World
    requires c in w.chains
  {
    w.(chains := w.chains[c := w.chains[c].(phase := ph)])
  }

  function WithPlace(w: World, p: nat, pl: Place): World {
    w.(places := w.places[p := pl])
  }

  /** publishRunComplete for `call`, issued by goroutine `c`: to the hook if the call has
      one, else to the broker. */
  function Emit(w: World, c: nat, call: Call): World
    requires c in w.chains
  {
    if call.hooked
    then w.(chains := w.chains[c := w.chains[c].(latest := Some(call.prompt))],
            places := w.places[call.prompt := Finished(Buffered(c))])
    else w.(published := w.published + multiset{call.prompt},
            places := w.places[call.prompt := Finished(Published)])
  }

  /** The prompts of `told` are dropped with an event, those of `untold` end silently. */
  function Settle(w: World, told: seq<Call>, untold: seq<Call>): World {
    w.(published := w.published + EventsFor(told),
       places := map p | p in w.places ::
         if p in Prompts(told) then Finished(Published)
         else if p in Prompts(untold) then Finished(Silent)
         else w.places[p])
  }

  /** The place of a prompt whose Run ended before the RunComplete defer was installed:
      only runAgent's fallback can still tell the caller, and only about its own prompt. */
  function UnreportedPlace(ch: Chain, c: nat, prompt: nat, runID: string, stopped: bool): Place {
    if runID == "" then Finished(Silent)
    else if ch.backend && prompt == c && !stopped then Finished(Owed(c))
    else Finished(Lost)
  }

  function FailOutcome(stopped: bool): Outcome { if stopped then Stopped else Failed }

  // ----------------------------------------------------------------------- steps

  predicate FreshRunID(w: World, runID: string) {
    runID == "" || forall c | c in w.chains :: w.chains[c].runID != runID
  }

  /** SendMessage: take a reservation and start the goroutine. */
  function StepAccept(w: World, p: nat, s: string, runID: string): World {
    var h := w.agent.gen + 1;
    var call := Call(p, s, runID, true, Some(h), 0);
    w.(agent := BeginAccepted(w.agent, s),
       chains := w.chains[p := Chain(s, runID, true, Some(h), Dispatched(call), None, false, [])],
       holder := w.holder[h := p],
       places := w.places[p := Pending(p)])
  }

  /** An in-process Coordinator.Run: no reservation, no runAgent around it. */
  function StepSubmitLocal(w: World, p: nat, s: string, runID: string): World {
    var call := Call(p, s, runID, true, None, 0);
    w.(chains := w.chains[p := Chain(s, runID, false, None, Dispatched(call), None, false, [])],
       places := w.places[p := Pending(p)])
  }

  function StepRefuse(w: World, c: nat): World
    requires c in w.chains
  {
    WithPlace(WithPhase(w, c, Closing), c, Finished(Refused))
  }

  function StepFailBeforeRun(w: World, c: nat, stopped: bool): World
    requires c in w.chains && HasCall(w.chains[c].phase)
  {
    var ch := w.chains[c];
    WithPlace(WithPhase(w, c, Unwinding(FailOutcome(stopped))),
              ch.phase.call.prompt, UnreportedPlace(ch, c, ch.phase.call.prompt, ch.phase.call.runID, stopped))
  }

  function StepEnter(w: World, c: nat, persistFails: bool): World
    requires c in w.chains && BeforeEntry(w.chains[c].phase)
  {
    var call := w.chains[c].phase.call;
    var r := |w.runOwner|;
    var w1 := w.(agent := EnterRun(w.agent, call, r));
    match Decide(w.agent, call)
    case CancelOnEntry =>
      Emit(WithPhase(w1, c, Unwinding(if persistFails then Failed else Ok)), c, call)
    case JoinQueue =>
      WithPlace(WithPhase(w1, c, Unwinding(Ok)), call.prompt, Waiting)
    case BecomeActive =>
      WithPlace(
        w1.(chains := w1.chains[
              c := w1.chains[c].(phase := Starting(call, r), cleanups := w1.chains[c].cleanups + [r])],
            runOwner := w1.runOwner + [c]),
        call.prompt, Running(c))
  }

  function StepLookupsDone(w: World, c: nat): World
    requires c in w.chains && w.chains[c].phase.Starting?
  {
    WithPhase(w, c, Streaming(w.chains[c].phase.call, w.chains[c].phase.run))
  }

  function StepDrain(w: World, s: string): World {
    var q := QueueOf(w.agent, s);
    var m := MarkOf(w.agent, s);
    Settle(w.(agent := Drain(w.agent, s)),
           Select(q, m, true, Announce), Select(q, m, true, Discard) + Select(q, m, true, Fold))
  }

  function StepStreamFails(w: World, c: nat, stopped: bool): World
    requires c in w.chains && w.chains[c].phase.Streaming?
  {
    Emit(WithPhase(w, c, Unwinding(FailOutcome(stopped))), c, w.chains[c].phase.call)
  }

  function StepCompletionDel(w: World, c: nat): World
    requires c in w.chains && w.chains[c].phase.Streaming?
  {
    var ch := w.chains[c];
    WithPhase(w.(agent := DeleteActive(w.agent, ch.session)), c, Completing(ch.phase.call))
  }

  /** outerOwesRunComplete: the turn has a RunID that no queued call carries on. */
  predicate Owes(call: Call, rest: seq<Call>) {
    call.runID != "" && forall q | q in rest :: q.runID != call.runID
  }

  function StepHandOff(w: World, c: nat): World
    requires c in w.chains && w.chains[c].phase.Completing?
  {
    var s := w.chains[c].session;
    var call := w.chains[c].phase.call;
    var q := QueueOf(w.agent, s);
    var m := MarkOf(w.agent, s);
    var rest := Survivors(w.agent, s);
    var w1 := Settle(w, Select(q, m, false, Announce), Select(q, m, false, Discard));
    if rest == [] then
      Emit(WithPhase(w1.(agent := HandoffIdle(w.agent, s)), c, Unwinding(Ok)), c, call)
    else
      var next := NextCall(w.agent, s);
      var w2 := WithPhase(w1.(agent := HandoffNext(w.agent, s), holder := w1.holder[w.agent.gen + 1 := c]),
                          c, HandedOff(next));
      var w3 := WithPlace(w2, next.prompt, Pending(c));
      if Owes(call, rest) then Emit(w3, c, call) else WithPlace(w3, call.prompt, Finished(Silent))
  }

  function StepCleanup(w: World, c: nat): World
    requires c in w.chains && w.chains[c].cleanups != []
  {
    var ch := w.chains[c];
    var k := |ch.cleanups| - 1;
    w.(agent := CompareAndDelete(w.agent, ch.session, ch.cleanups[k]),
       chains := w.chains[c := ch.(cleanups := ch.cleanups[..k])])
  }

  function StepCoordinatorReturns(w: World, c: nat): World
    requires c in w.chains && w.chains[c].phase.Unwinding?
  {
    var ch := w.chains[c];
    var done := ch.(phase := Coordinated(ch.phase.outcome));
    if ch.latest.None? then w.(chains := w.chains[c := done])
    else w.(chains := w.chains[c := done.(latest := None, marked := true)],
            published := w.published + multiset{ch.latest.value},
            places := w.places[ch.latest.value := Finished(Published)])
  }

  function StepBackendReturns(w: World, c: nat): World
    requires c in w.chains && w.chains[c].phase.Coordinated?
  {
    var ch := w.chains[c];
    if !ch.backend then WithPhase(w, c, Gone)
    else if ch.phase.outcome == Failed && ch.runID != "" && !ch.marked then
      WithPlace(WithPhase(w, c, Closing), c, Finished(Published)).(published := w.published + multiset{c})
    else WithPhase(w, c, Closing)
  }

  function StepReleaseHandle(w: World, c: nat): World
    requires c in w.chains
  {
    WithPhase(w.(agent := CloseOf(w.agent, w.chains[c].handle)), c, Gone)
  }

  function StepCancelStart(w: World, s: string): World {
    w.(agent := StopActive(w.agent, s), cancels := w.cancels[s := ReadForCancel(w.agent, s)])
  }

  function ClearedQueue(w: World, s: string): World {
    var q := QueueOf(w.agent, s);
    Settle(w, WithRunID(q), Filter(q, (c: Call) => c.runID == ""))
  }

  function StepCancelFinish(w: World, s: string): World
    requires s in w.cancels
  {
    ClearedQueue(w, s).(agent := RaiseAndClear(w.agent, s, w.cancels[s]), cancels := w.cancels - {s})
  }

  function StepClearQueued(w: World, s: string): World {
    ClearedQueue(w, s).(agent := ClearQueue(w.agent, s))
  }

  /** When an event can happen. The sections that take the session's dispatch mutex wait
      while a Cancel of that session holds it. */
  ghost predicate Enabled(w: World, e: Event) {
    match e
    case Accept(p, _, runID) => p !in w.chains && FreshRunID(w, runID)
    case SubmitLocal(p, _, runID) => p !in w.chains && FreshRunID(w, runID)
    case Refuse(c) => c in w.chains && w.chains[c].backend && w.chains[c].phase.Dispatched?
    case FailBeforeRun(c, _) => c in w.chains && w.chains[c].phase.Dispatched?
    case Enter(c, _) => c in w.chains && BeforeEntry(w.chains[c].phase) && Unlocked(w, c)
    case LookupFails(c, _) => c in w.chains && w.chains[c].phase.Starting?
    case LookupsDone(c) => c in w.chains && w.chains[c].phase.Starting?
    case DrainStep(c) => c in w.chains && w.chains[c].phase.Streaming? && Unlocked(w, c)
    case StreamFails(c, _) => c in w.chains && w.chains[c].phase.Streaming?
    case CompletionDel(c) => c in w.chains && w.chains[c].phase.Streaming?
    case HandOff(c) => c in w.chains && w.chains[c].phase.Completing? && Unlocked(w, c)
    case Cleanup(c) => c in w.chains && w.chains[c].phase.Unwinding? && w.chains[c].cleanups != []
    case CoordinatorReturns(c) => c in w.chains && w.chains[c].phase.Unwinding? && w.chains[c].cleanups == []
    case BackendReturns(c) => c in w.chains && w.chains[c].phase.Coordinated?
    case ReleaseHandle(c) => c in w.chains && w.chains[c].phase.Closing?
    case CancelStart(s) => s !in w.cancels
    case CancelFinish(s) => s in w.cancels
    case ClearQueued(_) => true
  }

  ghost function Step(w: World, e: Event): World
    requires Enabled(w, e)
  {
    match e
    case Accept(p, s, runID) => StepAccept(w, p, s, runID)
    case SubmitLocal(p, s, runID) => StepSubmitLocal(w, p, s, runID)
    case Refuse(c) => StepRefuse(w, c)
    case FailBeforeRun(c, stopped) => StepFailBeforeRun(w, c, stopped)
    case Enter(c, persistFails) => StepEnter(w, c, persistFails)
    case LookupFails(c, stopped) => StepFailBeforeRun(w, c, stopped)
    case LookupsDone(c) => StepLookupsDone(w, c)
    case DrainStep(c) => StepDrain(w, w.chains[c].session)
    case StreamFails(c, stopped) => StepStreamFails(w, c, stopped)
    case CompletionDel(c) => StepCompletionDel(w, c)
    case HandOff(c) => StepHandOff(w, c)
    case Cleanup(c) => StepCleanup(w, c)
    case CoordinatorReturns(c) => StepCoordinatorReturns(w, c)
    case BackendReturns(c) => StepBackendReturns(w, c)
    case ReleaseHandle(c) => StepReleaseHandle(w, c)
    case CancelStart(s) => StepCancelStart(w, s)
    case CancelFinish(s) => StepCancelFinish(w, s)
    case ClearQueued(s) => StepClearQueued(w, s)
  }

  /** `ws` is a run: it starts in START and `es[i]` leads from `ws[i]` to `ws[i + 1]`. */
  ghost predicate IsRun(ws: seq<World>, es: seq<Event>) {
    && |ws| == |es| + 1
    && ws[0] == START
    && forall i | 0 <= i < |es| :: Enabled(ws[i], es[i]) && ws[i + 1] == Step(ws[i], es[i])
  }
}
