/** How one prompt moves: the transitions of its place, and what happens to the mark that
    covers it. The theorems about Cancel are inductions over these. */
module DispatchMoves {
  import opened Common
  import opened AgentState
  import opened AgentInvariants
  import opened DispatchProtocol
  import opened DispatchInvariants

  /** The step may take the pending prompt of `c` out of the pending state. */
  predicate TakesUp(e: Event, c: nat) {
    (e.Enter? && e.chain == c) || (e.Refuse? && e.chain == c) || (e.FailBeforeRun? && e.chain == c)
  }

  /** The step may empty queue slots without running what was in them. */
  predicate DropsCalls(e: Event) { e.DrainStep? || e.HandOff? || e.CancelFinish? || e.ClearQueued? }

  /** The transitions a place can make in one step. */
  ghost predicate Moves(w: World, e: Event, w': World, p: nat)
    requires p in w.places
  {
    && p in w'.places && p in w.chains && p in w'.chains
    && w'.chains[p].session == w.chains[p].session && w'.chains[p].runID == w.chains[p].runID
    && match w.places[p] {
         case Pending(c) =>
           || (w'.places[p] == Pending(c) && c in w.chains && c in w'.chains && w'.chains[c].phase == w.chains[c].phase)
           || TakesUp(e, c)
         case Waiting =>
           || w'.places[p] == Waiting
           || (w'.places[p].Finished? && DropsCalls(e))
           || (e.HandOff? && w'.places[p] == Pending(e.chain) && e.chain in w'.chains
               && w'.chains[e.chain].phase.HandedOff? && w'.chains[e.chain].phase.call.prompt == p
               && w'.chains[e.chain].phase.call.accepted == Some(w.agent.gen + 1))
         case Running(c) => w'.places[p] == Running(c) || w'.places[p].Finished?
         case Finished(_) => w'.places[p].Finished?
       }
  }

  /** What the moves of `p` depend on. */
  ghost predicate Here(w: World, p: nat) {
    && p in w.places && w.places.Keys == w.chains.Keys && Placed(w, p)
  }

  lemma LocalizeBoth(w: World, c: nat, p: nat)
    requires Inv(w) && c in w.chains && p in w.places
    ensures At(w, c) && Here(w, p)
  {
  }

  lemma FailureMoves(w: World, e: Event, c: nat, p: nat)
    requires e.FailBeforeRun? || e.LookupFails? || e.StreamFails?
    requires e.chain == c && Enabled(w, e)
    requires At(w, c) && Here(w, p)
    ensures Moves(w, e, Step(w, e), p)
  {
    hide OwnsHandle, OwnsRuns, HasCleaner, FateKept, Bookkeeping;
  }

  lemma PhaseMoves(w: World, e: Event, c: nat, p: nat)
    requires e.LookupsDone? || e.CompletionDel? || e.Refuse?
    requires e.chain == c && Enabled(w, e)
    requires At(w, c) && Here(w, p)
    ensures Moves(w, e, Step(w, e), p)
  {
    hide OwnsHandle, OwnsRuns, HasCleaner, FateKept, Bookkeeping;
  }

  lemma CoordinatorReturnMoves(w: World, e: Event, c: nat, p: nat)
    requires e == CoordinatorReturns(c) && Enabled(w, e)
    requires At(w, c) && Here(w, p)
    ensures Moves(w, e, Step(w, e), p)
  {
    hide OwnsHandle, OwnsRuns, HasCleaner, CarriesCall, Places;
  }

  lemma BackendReturnMoves(w: World, e: Event, c: nat, p: nat)
    requires e == BackendReturns(c) && Enabled(w, e)
    requires At(w, c) && Here(w, p)
    ensures Moves(w, e, Step(w, e), p)
  {
    hide OwnsHandle, OwnsRuns, HasCleaner, CarriesCall, Places;
  }

  lemma CleanupMoves(w: World, e: Event, c: nat, p: nat)
    requires e.Cleanup? || e.ReleaseHandle?
    requires e.chain == c && Enabled(w, e) && Here(w, p)
    ensures Moves(w, e, Step(w, e), p)
  {
  }

  lemma NewMoves(w: World, e: Event, p: nat)
    requires e.Accept? || e.SubmitLocal?
    requires Enabled(w, e) && Here(w, p)
    ensures Moves(w, e, Step(w, e), p)
  {
  }

  lemma EnterMoves(w: World, e: Event, c: nat, p: nat)
    requires e.Enter? && e.chain == c && Enabled(w, e)
    requires At(w, c) && Here(w, p)
    ensures Moves(w, e, Step(w, e), p)
  {
    hide At, Here, Moves;
    EnterEffect(w, c, e.persistFails);
    EnterMovesTo(w, e, Step(w, e), c, p);
  }

  /** What Run's dispatch section does to the agent, to chains and to places. */
  ghost predicate EntryEffect(w: World, c: nat, w': World)
    requires c in w.chains && BeforeEntry(w.chains[c].phase)
  {
    && c in w'.chains && w'.chains == w.chains[c := w'.chains[c]]
    && w'.chains[c].session == w.chains[c].session && w'.chains[c].runID == w.chains[c].runID
    && w.chains[c].phase.call.prompt in w'.places
    && w'.places == w.places[w.chains[c].phase.call.prompt := w'.places[w.chains[c].phase.call.prompt]]
    && w'.agent == EnterRun(w.agent, w.chains[c].phase.call, |w.runOwner|)
  }

  lemma EmitEffect(w: World, c: nat, call: Call)
    requires c in w.chains
    ensures var v := Emit(w, c, call);
      && c in v.chains && v.chains == w.chains[c := v.chains[c]]
      && v.chains[c].session == w.chains[c].session && v.chains[c].runID == w.chains[c].runID
      && call.prompt in v.places && v.places == w.places[call.prompt := v.places[call.prompt]]
      && v.agent == w.agent
  {
  }

  lemma EnterEffect(w: World, c: nat, persistFails: bool)
    requires c in w.chains && BeforeEntry(w.chains[c].phase)
    ensures EntryEffect(w, c, StepEnter(w, c, persistFails))
  {
    hide EnterRun, Decide, Emit;
    var call := w.chains[c].phase.call;
    if Decide(w.agent, call) == CancelOnEntry {
      var w1 := w.(agent := EnterRun(w.agent, call, |w.runOwner|));
      EmitEffect(WithPhase(w1, c, Unwinding(if persistFails then Failed else Ok)), c, call);
    }
  }

  lemma EnterMovesTo(w: World, e: Event, w': World, c: nat, p: nat)
    requires e.Enter? && e.chain == c && At(w, c) && Here(w, p) && BeforeEntry(w.chains[c].phase)
    requires EntryEffect(w, c, w')
    ensures Moves(w, e, w', p)
  {
  }

  /** Settling a queue moves only prompts that wait in it. */
  lemma SettleMoves(
      w: World, w': World, e: Event, s: string, keep: seq<Call>, told: seq<Call>, untold: seq<Call>, p: nat)
    requires QueuesInv(w) && Here(w, p) && DropsCalls(e)
    requires Splits(QueueOf(w.agent, s), keep, told, untold)
    requires w'.chains == w.chains && w'.places == Settle(w, told, untold).places
    ensures Moves(w, e, w', p)
    ensures w.places[p] != Waiting ==> w'.places[p] == w.places[p]
  {
  }

  lemma QueueMoves(w: World, e: Event, p: nat)
    requires e.DrainStep? || e.CancelFinish? || e.ClearQueued? || e.CancelStart?
    requires Enabled(w, e) && QueuesInv(w) && Here(w, p)
    ensures Moves(w, e, Step(w, e), p)
  {
    hide QueuesInv, Splits, QueueBecomes;
    match e
    case DrainStep(c) =>
      var s := w.chains[c].session;
      var q, m := QueueOf(w.agent, s), MarkOf(w.agent, s);
      DrainSplits(w, s);
      SettleMoves(w, Step(w, e), e, s, Select(q, m, true, Keep), Select(q, m, true, Announce),
                  Select(q, m, true, Discard) + Select(q, m, true, Fold), p);
    case CancelFinish(s) =>
      var q := QueueOf(w.agent, s);
      ClearSplits(w, s);
      SettleMoves(w, Step(w, e), e, s, [], WithRunID(q), Filter(q, (c: Call) => c.runID == ""), p);
    case ClearQueued(s) =>
      var q := QueueOf(w.agent, s);
      ClearSplits(w, s);
      SettleMoves(w, Step(w, e), e, s, [], WithRunID(q), Filter(q, (c: Call) => c.runID == ""), p);
    case CancelStart(s) =>
  }

  /** Once the covered calls are gone, the handoff moves the finished turn's prompt and
      the first waiting one. */
  lemma IdleMoves(w: World, e: Event, c: nat, p: nat)
    requires e == HandOff(c) && At(w, c) && w.chains[c].phase.Completing? && Here(w, p)
    ensures Moves(w, e, HandIdle(w, c), p)
  {
  }

  lemma NextMoves(w: World, e: Event, c: nat, p: nat)
    requires e == HandOff(c) && At(w, c) && w.chains[c].phase.Completing? && Here(w, p)
    requires QueueOf(w.agent, w.chains[c].session) != [] && NextFacts(w, c)
    ensures Moves(w, e, HandNext(w, c), p)
  {
    hide OwnsHandle, OwnsRuns, HasCleaner, FateKept, Bookkeeping, Owes;
    hide HandNext;
    NextHasForm(w, c);
  }

  lemma HandOffMoves(w: World, e: Event, c: nat, p: nat)
    requires e == HandOff(c) && Enabled(w, e) && Inv(w) && p in w.places
    ensures Moves(w, e, Step(w, e), p)
  {
    hide Inv, MidHandOff, StepHandOff, HandIdle, HandNext, Survivors, NextFacts, Moves, At, Here;
    var mid := MidHandOff(w, c);
    MidKeeps(w, c);
    MidMoves(w, e, c, p);
    if Survivors(w.agent, w.chains[c].session) == [] {
      HandOffIsIdle(w, c);
      LocalizeBoth(mid, c, p);
      IdleMoves(mid, e, c, p);
      MovesTwice(w, mid, Step(w, e), e, p);
    } else {
      HandOffIsNext(w, c);
      LocalizeBoth(mid, c, p);
      KnowNextOf(mid, c);
      NextMoves(mid, e, c, p);
      MovesTwice(w, mid, Step(w, e), e, p);
    }
  }

  lemma KnowNextOf(w: World, c: nat)
    requires Inv(w) && c in w.chains && w.chains[c].phase.Completing? && QueueOf(w.agent, w.chains[c].session) != []
    ensures NextFacts(w, c)
  {
  }

  lemma MidMoves(w: World, e: Event, c: nat, p: nat)
    requires e == HandOff(c) && Inv(w) && c in w.chains && p in w.places
    ensures var mid := MidHandOff(w, c);
      && p in mid.places && Moves(w, e, mid, p)
      && (w.places[p] != Waiting ==> mid.places[p] == w.places[p])
      && (mid.places[p] == Waiting || mid.places[p].Finished? || mid.places[p] == w.places[p])
      && mid.agent.gen == w.agent.gen && mid.chains == w.chains
  {
  }

  lemma MovesTwice(w: World, mid: World, w': World, e: Event, p: nat)
    requires e.HandOff? && p in w.places && p in mid.places
    requires Moves(w, e, mid, p) && Moves(mid, e, w', p)
    requires w.places[p] != Waiting ==> mid.places[p] == w.places[p]
    requires mid.places[p] == Waiting || mid.places[p].Finished? || mid.places[p] == w.places[p]
    requires mid.agent.gen == w.agent.gen && mid.chains == w.chains
    ensures Moves(w, e, w', p)
  {
  }

  /** Every step moves every prompt along one of these transitions. */
  lemma StepMoves(w: World, e: Event, p: nat)
    requires Enabled(w, e) && Inv(w) && p in w.places
    ensures Moves(w, e, Step(w, e), p)
  {
    hide AgentInv, CancelsInv, HandlesInv, RunsInv, CallsInv, QueuesInv, TerminalInv, At, Moves, Step;
    assert Here(w, p) by { assert Placed(w, p); }
    if e.Accept? || e.SubmitLocal? {
      NewMoves(w, e, p);
    } else if e.DrainStep? || e.CancelFinish? || e.ClearQueued? || e.CancelStart? {
      QueueMoves(w, e, p);
    } else if e.HandOff? {
      HandOffMoves(w, e, e.chain, p);
    } else {
      Localize(w, e.chain);
      if e.Enter? { EnterMoves(w, e, e.chain, p); }
      else if e.Cleanup? || e.ReleaseHandle? { CleanupMoves(w, e, e.chain, p); }
      else if e.CoordinatorReturns? { CoordinatorReturnMoves(w, e, e.chain, p); }
      else if e.BackendReturns? { BackendReturnMoves(w, e, e.chain, p); }
      else if e.FailBeforeRun? || e.LookupFails? || e.StreamFails? { FailureMoves(w, e, e.chain, p); }
      else { PhaseMoves(w, e, e.chain, p); }
    }
  }

  // ------------------------------------------------------------------ what a step does to the agent

  /** The section of sessionAgent that a step runs. */
  ghost function AgentAfter(w: World, e: Event): Agent
    requires Enabled(w, e)
  {
    match e
    case Accept(_, s, _) => BeginAccepted(w.agent, s)
    case Enter(c, _) => EnterRun(w.agent, w.chains[c].phase.call, |w.runOwner|)
    case DrainStep(c) => Drain(w.agent, w.chains[c].session)
    case CompletionDel(c) => DeleteActive(w.agent, w.chains[c].session)
    case HandOff(c) =>
      var s := w.chains[c].session;
      if Survivors(w.agent, s) == [] then HandoffIdle(w.agent, s) else HandoffNext(w.agent, s)
    case Cleanup(c) =>
      CompareAndDelete(w.agent, w.chains[c].session, w.chains[c].cleanups[|w.chains[c].cleanups| - 1])
    case ReleaseHandle(c) => CloseOf(w.agent, w.chains[c].handle)
    case CancelStart(s) => StopActive(w.agent, s)
    case CancelFinish(s) => RaiseAndClear(w.agent, s, w.cancels[s])
    case ClearQueued(s) => ClearQueue(w.agent, s)
    case _ => w.agent
  }

  lemma AgentStep(w: World, e: Event)
    requires Enabled(w, e)
    ensures Step(w, e).agent == AgentAfter(w, e)
  {
    hide EventsFor, Prompts, Select, WithRunID, EnterRun, Decide, Survivors, HandoffIdle, HandoffNext, Owes, Drain,
      CloseOf, RaiseAndClear, ClearQueue, StopActive, CompareAndDelete, DeleteActive, BeginAccepted, Emit,
      StepEnter, StepHandOff, StepDrain, StepStreamFails, UnreportedPlace;
    match e
    case Enter(c, persistFails) => EnterEffect(w, c, persistFails);
    case HandOff(c) => AgentAfterHandOff(w, c);
    case DrainStep(c) => AgentAfterDrain(w, w.chains[c].session);
    case StreamFails(c, stopped) => AgentAfterFailure(w, c, stopped);
    case _ =>
  }

  lemma AgentAfterDrain(w: World, s: string)
    ensures StepDrain(w, s).agent == Drain(w.agent, s)
  {
    hide Drain, EventsFor, Prompts, Select;
  }

  lemma AgentAfterFailure(w: World, c: nat, stopped: bool)
    requires c in w.chains && w.chains[c].phase.Streaming?
    ensures StepStreamFails(w, c, stopped).agent == w.agent
  {
  }

  lemma AgentAfterHandOff(w: World, c: nat)
    requires c in w.chains && w.chains[c].phase.Completing?
    ensures var t := w.chains[c].session;
      StepHandOff(w, c).agent
      == if Survivors(w.agent, t) == [] then HandoffIdle(w.agent, t) else HandoffNext(w.agent, t)
  {
    hide EventsFor, Prompts, Owes, Survivors, HandoffIdle, HandoffNext, Select;
  }

  // ------------------------------------------------------------------------ marks

  /** While a handle stays open, the mark of its session only grows. */
  lemma StepKeepsMark(w: World, e: Event, s: string, h: nat)
    requires Enabled(w, e) && AgentInv(w.agent)
    requires h in w.agent.open && w.agent.open[h] == s
    requires h in Step(w, e).agent.open && Step(w, e).agent.open[h] == s
    ensures MarkOf(w.agent, s) <= MarkOf(Step(w, e).agent, s)
  {
    hide AgentInv, StepEnter, EnterRun, CloseOf, StepHandOff;
    if e.Enter? {
      EnterEffect(w, e.chain, e.persistFails);
      EnterKeepsMark(w.agent, w.chains[e.chain].phase.call, |w.runOwner|, s, h);
    } else if e.HandOff? {
      HandOffKeepsMark(w, e.chain, s, h);
    } else if e.ReleaseHandle? {
      CloseKeepsMark(w.agent, w.chains[e.chain].handle, s, h);
    } else if e.CancelFinish? {
      assert Step(w, e).agent == RaiseAndClear(w.agent, e.session, w.cancels[e.session]);
    } else {
      hide Step, Enabled;
      OtherKeepsMark(w, e);
    }
  }

  lemma OtherKeepsMark(w: World, e: Event)
    requires Enabled(w, e)
    requires !e.Enter? && !e.HandOff? && !e.ReleaseHandle? && !e.CancelFinish?
    ensures Step(w, e).agent.mark == w.agent.mark
  {
    AgentStep(w, e);
    hide Step, Select;
  }

  lemma CloseKeepsMark(a: Agent, hh: Option<nat>, s: string, h: nat)
    requires AgentInv(a) && h in CloseOf(a, hh).open && CloseOf(a, hh).open[h] == s
    ensures MarkOf(CloseOf(a, hh), s) == MarkOf(a, s)
  {
    if hh.Some? {
      CloseHandleKeeps(a, hh.value);
      assert h in OpenHandles(CloseOf(a, hh).open, s);
    }
  }

  lemma EnterKeepsMark(a: Agent, call: Call, run: nat, s: string, h: nat)
    requires AgentInv(a)
    requires h in EnterRun(a, call, run).open && EnterRun(a, call, run).open[h] == s
    ensures MarkOf(EnterRun(a, call, run), s) == MarkOf(a, s)
  {
    hide AgentInv;
    match Decide(a, call)
    case CancelOnEntry => CloseKeepsMark(a, call.accepted, s, h);
    case JoinQueue =>
      var b := Enqueue(a, call);
      MarkIgnoresQueue(a, b, call.accepted, s, h);
    case BecomeActive =>
      var b := a.(active := a.active[call.session := run]);
      MarkIgnoresQueue(a, b, call.accepted, s, h);
  }

  /** Closing a handle treats the mark the same way whatever the queues and active runs. */
  lemma MarkIgnoresQueue(a: Agent, b: Agent, hh: Option<nat>, s: string, h: nat)
    requires AgentInv(a)
    requires b == a.(queue := b.queue, active := b.active)
    requires h in CloseOf(b, hh).open && CloseOf(b, hh).open[h] == s
    ensures MarkOf(CloseOf(b, hh), s) == MarkOf(a, s)
  {
    hide AgentInv, CloseOf;
    CloseIgnoresQueue(a, b, hh);
    CloseKeepsMark(a, hh, s, h);
  }

  lemma CloseIgnoresQueue(a: Agent, b: Agent, hh: Option<nat>)
    requires b == a.(queue := b.queue, active := b.active)
    ensures CloseOf(b, hh).open == CloseOf(a, hh).open && CloseOf(b, hh).mark == CloseOf(a, hh).mark
  {
  }

  lemma HandOffKeepsMark(w: World, c: nat, s: string, h: nat)
    requires c in w.chains && w.chains[c].phase.Completing? && AgentInv(w.agent)
    requires h in w.agent.open && w.agent.open[h] == s
    ensures MarkOf(StepHandOff(w, c).agent, s) == MarkOf(w.agent, s)
  {
    hide AgentInv, Settle, Survivors;
    OpenMeansCounted(w.agent, s, h);
  }

  lemma OpenMeansCounted(a: Agent, s: string, h: nat)
    requires AgentInv(a) && h in a.open && a.open[h] == s
    ensures Lookup(a.accepted, s, 0) > 0
  {
    assert Lookup(a.accepted, s, 0) == |OpenHandles(a.open, s)|;
    assert h in OpenHandles(a.open, s);
  }
}
