/** What the dispatch protocol guarantees over every run. */
module DispatchTheorems {
  import opened Common
  import opened AgentState
  import opened AgentInvariants
  import opened DispatchProtocol
  import opened DispatchInvariants
  import opened DispatchMoves

  // ------------------------------------------------- Cancel covers everything before it

  /** Between two states, the prompt becomes an active run. */
  ghost predicate Activates(w: World, w': World, p: nat) {
    p in w'.places && w'.places[p].Running? && !(p in w.places && w.places[p].Running?)
  }

  /** The step folds the prompt into a running turn. */
  ghost predicate FoldedBy(w: World, e: Event, p: nat) {
    && e.DrainStep? && e.chain in w.chains
    && var s := w.chains[e.chain].session;
       p in Prompts(Select(QueueOf(w.agent, s), MarkOf(w.agent, s), true, Fold))
  }

  /** A prompt that can no longer run: if it is still on its way to Run, the mark of its
      session covers its handle. */
  ghost predicate Barred(w: World, p: nat) {
    && p in w.places && p in w.chains
    && match w.places[p] {
         case Pending(c) =>
           && c in w.chains && HasCall(w.chains[c].phase) && w.chains[c].phase.call.accepted.Some?
           && 0 < w.chains[c].phase.call.accepted.value <= MarkOf(w.agent, w.chains[p].session)
         case Waiting => false
         case _ => true
       }
  }

  /** The same while Cancel holds the dispatch mutex and has not raised the mark yet. */
  ghost predicate AboutToBeBarred(w: World, p: nat) {
    && p in w.places && p in w.chains && w.chains[p].session in w.cancels
    && match w.places[p] {
         case Pending(c) =>
           var read := w.cancels[w.chains[p].session];
           && c in w.chains && HasCall(w.chains[c].phase) && w.chains[c].phase.call.accepted.Some?
           && read.inFlight && 0 < w.chains[c].phase.call.accepted.value <= read.gen
         case _ => true
       }
  }

  /** The prompt was accepted: it has a handle, or it went through Run's dispatch section. */
  ghost predicate WasAccepted(w: World, p: nat) {
    && p in w.places
    && match w.places[p] {
         case Pending(c) => c in w.chains && HasCall(w.chains[c].phase) && w.chains[c].phase.call.accepted.Some?
         case _ => true
       }
  }

  /** What a pending place says about the goroutine that holds it. */
  lemma PendingAt(w: World, p: nat)
    requires Inv(w) && p in w.places && w.places[p].Pending?
    ensures var c := w.places[p].at;
      && c in w.chains && p in w.chains && BeforeEntry(w.chains[c].phase)
      && w.chains[c].phase.call.prompt == p && w.chains[c].phase.call.session == w.chains[c].session
      && w.chains[c].session == w.chains[p].session
      && (w.chains[c].phase.call.accepted.Some? ==>
            var h := w.chains[c].phase.call.accepted.value;
            h in w.agent.open && w.agent.open[h] == w.chains[p].session && 0 < h <= w.agent.gen)
  {
  }

  lemma FoldedWaits(w: World, e: Event, p: nat)
    requires Inv(w) && FoldedBy(w, e, p)
    ensures p in w.places && p in w.chains && w.places[p] == Waiting
    ensures e.DrainStep? && e.chain in w.chains
    ensures w.chains[p].session == w.chains[e.chain].session && w.chains[p].runID == ""
  {
  }

  /** Taking up a covered call never makes it active. */
  lemma TakeUpBarred(w: World, e: Event, c: nat, p: nat)
    requires Enabled(w, e) && TakesUp(e, c) && c in w.chains
    requires BeforeEntry(w.chains[c].phase) && w.chains[c].phase.call.prompt == p
    requires e.Refuse? ==> p == c
    requires w.chains[c].phase.call.accepted.Some?
    requires w.chains[c].phase.call.session == w.chains[c].session
    requires 0 < w.chains[c].phase.call.accepted.value <= MarkOf(w.agent, w.chains[c].session)
    ensures p in Step(w, e).places && Step(w, e).places[p].Finished?
  {
  }

  lemma BarredKept(w: World, e: Event, p: nat)
    requires Enabled(w, e) && Inv(w) && Barred(w, p)
    ensures Barred(Step(w, e), p)
    ensures !Activates(w, Step(w, e), p) && !FoldedBy(w, e, p)
  {
    hide Inv, Step, FoldedBy, EnterRun;
    var w' := Step(w, e);
    StepKeeps(w, e);
    StepMoves(w, e, p);
    if FoldedBy(w, e, p) { FoldedWaits(w, e, p); }
    if w.places[p].Pending? {
      var c := w.places[p].at;
      PendingAt(w, p);
      if TakesUp(e, c) {
        RefusedIsOwn(w, c);
        TakeUpBarred(w, e, c, p);
      } else {
        PendingAt(w', p);
        AgentInvOf(w);
        StepKeepsMark(w, e, w.chains[p].session, w.chains[c].phase.call.accepted.value);
      }
    }
  }

  lemma AgentInvOf(w: World)
    requires Inv(w)
    ensures AgentInv(w.agent)
  {
  }

  lemma RefusedIsOwn(w: World, c: nat)
    requires Inv(w) && c in w.chains
    ensures w.chains[c].phase.Dispatched? ==> w.chains[c].phase.call.prompt == c
  {
  }

  predicate IsQueueStep(e: Event) { e.Enter? || e.DrainStep? || e.HandOff? || e.ClearQueued? }

  /** Only Cancel itself changes which Cancels are under way and what they read. */
  lemma QueueStepsSpareCancels(w: World, e: Event)
    requires Enabled(w, e) && IsQueueStep(e)
    ensures Step(w, e).cancels == w.cancels
  {
    hide EventsFor, Prompts, Select, WithRunID, EnterRun, Decide, Survivors, HandoffIdle, HandoffNext, Owes,
      StepAccept, StepSubmitLocal, StepRefuse, StepFailBeforeRun, StepStreamFails, StepCompletionDel, StepCleanup,
      StepCoordinatorReturns, StepBackendReturns, StepReleaseHandle, StepCancelFinish;
  }

  predicate IsEarlyStep(e: Event) {
    e.Accept? || e.SubmitLocal? || e.Refuse? || e.FailBeforeRun? || e.LookupFails? || e.LookupsDone?
  }

  lemma EarlyStepsSpareCancels(w: World, e: Event)
    requires Enabled(w, e) && IsEarlyStep(e)
    ensures Step(w, e).cancels == w.cancels
  {
    hide StepEnter, StepDrain, StepHandOff, StepClearQueued, StepCancelFinish, StepStreamFails, StepCompletionDel,
      StepCleanup, StepCoordinatorReturns, StepBackendReturns, StepReleaseHandle, UnreportedPlace;
  }

  lemma LateStepsSpareCancels(w: World, e: Event)
    requires Enabled(w, e) && !IsQueueStep(e) && !IsEarlyStep(e) && !e.CancelStart? && !e.CancelFinish?
    ensures Step(w, e).cancels == w.cancels
  {
    hide StepEnter, StepDrain, StepHandOff, StepClearQueued, StepCancelFinish, StepAccept, StepSubmitLocal,
      StepRefuse, StepFailBeforeRun, StepLookupsDone, CloseOf;
  }

  /** A step other than the end of this Cancel leaves what it read in place. */
  lemma CancelReadStays(w: World, e: Event, s: string)
    requires Enabled(w, e) && s in w.cancels && e != CancelFinish(s)
    ensures s in Step(w, e).cancels && Step(w, e).cancels[s] == w.cancels[s]
  {
    hide Step;
    CancelsFrom(w, e);
  }

  lemma CancelsFrom(w: World, e: Event)
    requires Enabled(w, e)
    ensures Step(w, e).cancels == match e {
        case CancelStart(s) => w.cancels[s := ReadForCancel(w.agent, s)]
        case CancelFinish(s) => w.cancels - {s}
        case _ => w.cancels
      }
  {
    if IsQueueStep(e) {
      hide Step, Enabled;
      QueueStepsSpareCancels(w, e);
    } else if !e.CancelStart? && !e.CancelFinish? {
      hide Step, Enabled;
      if IsEarlyStep(e) { EarlyStepsSpareCancels(w, e); } else { LateStepsSpareCancels(w, e); }
    }
  }

  lemma AboutToBeBarredKept(w: World, e: Event, p: nat)
    requires Enabled(w, e) && Inv(w) && AboutToBeBarred(w, p) && e != CancelFinish(w.chains[p].session)
    ensures AboutToBeBarred(Step(w, e), p)
    ensures !Activates(w, Step(w, e), p) && !FoldedBy(w, e, p)
  {
    hide Inv, Step, FoldedBy, EnterRun;
    var w' := Step(w, e);
    StepKeeps(w, e);
    StepMoves(w, e, p);
    CancelReadStays(w, e, w.chains[p].session);
    if FoldedBy(w, e, p) { FoldedWaits(w, e, p); }
    if w.places[p].Pending? {
      PendingAt(w, p);
      if TakesUp(e, w.places[p].at) {
        RefusedIsOwn(w, w.places[p].at);
        TakeUpLocked(w, e, w.places[p].at, p);
      }
    } else if w.places[p] == Waiting && w'.places[p].Pending? {
      PendingAt(w', p);
      HandOffSession(w, e);
    }
  }

  /** A locked session's prompts can only be refused or fail. */
  lemma TakeUpLocked(w: World, e: Event, c: nat, p: nat)
    requires Enabled(w, e) && TakesUp(e, c) && c in w.chains && !Unlocked(w, c)
    requires BeforeEntry(w.chains[c].phase) && w.chains[c].phase.call.prompt == p
    requires e.Refuse? ==> p == c
    ensures p in Step(w, e).places && Step(w, e).places[p].Finished?
  {
  }

  lemma HandOffSession(w: World, e: Event)
    requires e.HandOff? && Enabled(w, e)
    ensures Unlocked(w, e.chain)
    ensures e.chain in Step(w, e).chains && Step(w, e).chains[e.chain].session == w.chains[e.chain].session
  {
  }

  /** Cancel's first section: every accepted prompt of the session is about to be barred,
      and if its run is registered, the run's context is cancelled. */
  lemma CancelStartCovers(w: World, s: string, p: nat)
    requires Enabled(w, CancelStart(s)) && Inv(w)
    requires WasAccepted(w, p) && p in w.chains && w.chains[p].session == s
    ensures var w' := Step(w, CancelStart(s));
      && AboutToBeBarred(w', p)
      && forall c | w.places[p] == Running(c) && c in w.chains && Registered(w.chains[c].phase) ::
           w.chains[c].phase.run in w'.agent.stopped
  {
    if w.places[p].Pending? {
      PendingAt(w, p);
      OpenMeansCounted(w.agent, s, w.chains[w.places[p].at].phase.call.accepted.value);
    }
    forall c | w.places[p] == Running(c) && c in w.chains && Registered(w.chains[c].phase)
      ensures w.chains[c].phase.run in Step(w, CancelStart(s)).agent.stopped
    {
      assert OwnsRuns(w, c) && Placed(w, p) && CarriesCall(w, c);
    }
  }

  /** Cancel's second section bars them. */
  lemma CancelFinishBars(w: World, s: string, p: nat)
    requires Enabled(w, CancelFinish(s)) && Inv(w)
    requires AboutToBeBarred(w, p) && w.chains[p].session == s
    ensures Barred(Step(w, CancelFinish(s)), p)
    ensures !Activates(w, Step(w, CancelFinish(s)), p)
  {
    hide Inv;
    var w' := Step(w, CancelFinish(s));
    StepKeeps(w, CancelFinish(s));
    StepMoves(w, CancelFinish(s), p);
    AgentAfterCancel(w, s);
    if w'.places[p] == Waiting { WaitingIsQueued(w', p); }
  }

  lemma AgentAfterCancel(w: World, s: string)
    requires Enabled(w, CancelFinish(s)) && Inv(w)
    ensures QueueOf(Step(w, CancelFinish(s)).agent, s) == []
    ensures w.cancels[s].inFlight ==> w.cancels[s].gen <= MarkOf(Step(w, CancelFinish(s)).agent, s)
  {
  }

  lemma WaitingIsQueued(w: World, p: nat)
    requires Inv(w) && p in w.places && w.places[p] == Waiting
    ensures p in w.chains && p in Prompts(QueueOf(w.agent, w.chains[p].session))
  {
  }

  /** Where `p` stands in state `k` of a run in which Cancel(s) started at `i` and
      finished at `j`. */
  lemma {:induction false} AfterCancelStart(ws: seq<World>, es: seq<Event>, s: string, p: nat, i: nat, j: nat, k: nat)
    requires IsRun(ws, es) && i < j < |es| && i < k < |ws|
    requires es[i] == CancelStart(s) && es[j] == CancelFinish(s)
    requires forall m | i < m < j :: es[m] != CancelFinish(s)
    requires WasAccepted(ws[i], p) && p in ws[i].chains && ws[i].chains[p].session == s
    ensures p in ws[k].chains && ws[k].chains[p].session == s
    ensures k <= j ==> AboutToBeBarred(ws[k], p)
    ensures k > j ==> Barred(ws[k], p)
    decreases k
  {
    hide Inv, Step, Enabled, WasAccepted, Moves;
    RunKeeps(ws, es, k - 1);
    if k == i + 1 {
      CancelStartCovers(ws[i], s, p);
      SessionStays(ws[i], es[i], p);
    } else {
      AfterCancelStart(ws, es, s, p, i, j, k - 1);
      SessionStays(ws[k - 1], es[k - 1], p);
      if k - 1 < j { AboutToBeBarredKept(ws[k - 1], es[k - 1], p); }
      else if k - 1 == j { CancelFinishBars(ws[j], s, p); }
      else { BarredKept(ws[k - 1], es[k - 1], p); }
    }
  }

  lemma SessionStays(w: World, e: Event, p: nat)
    requires Enabled(w, e) && Inv(w) && p in w.chains
    ensures p in Step(w, e).chains && Step(w, e).chains[p].session == w.chains[p].session
    ensures Step(w, e).chains[p].runID == w.chains[p].runID
    ensures p in Step(w, e).places && p in w.places
  {
    hide Step;
    StepMoves(w, e, p);
  }

  /** Cancel covers everything before it: once Cancel(s) has started, no prompt of `s`
      accepted earlier is made active or folded into a turn, in any later step; if it was
      the registered run at that moment, its context is cancelled. */
  lemma CancelCoversEarlierPrompts(ws: seq<World>, es: seq<Event>, s: string, p: nat, i: nat, j: nat, k: nat)
    requires IsRun(ws, es) && i < j < |es| && i < k < |es|
    requires es[i] == CancelStart(s) && es[j] == CancelFinish(s)
    requires forall m | i < m < j :: es[m] != CancelFinish(s)
    requires WasAccepted(ws[i], p) && p in ws[i].chains && ws[i].chains[p].session == s
    ensures !Activates(ws[k], ws[k + 1], p) && !FoldedBy(ws[k], es[k], p)
    ensures forall c | ws[i].places[p] == Running(c) && c in ws[i].chains && Registered(ws[i].chains[c].phase) ::
              ws[i].chains[c].phase.run in ws[i + 1].agent.stopped
    ensures k >= j ==> p in ws[k + 1].places && ws[k + 1].places[p] != Waiting
  {
    hide Inv, Step, Enabled, Moves, WasAccepted;
    RunKeeps(ws, es, i);
    CancelStartCovers(ws[i], s, p);
    RunKeeps(ws, es, k);
    AfterCancelStart(ws, es, s, p, i, j, k);
    AfterCancelStart(ws, es, s, p, i, j, k + 1);
    if k < j { AboutToBeBarredKept(ws[k], es[k], p); }
    else if k == j { CancelFinishBars(ws[j], s, p); }
    else { BarredKept(ws[k], es[k], p); }
  }

  // ------------------------------------------------- Cancel never poisons a later prompt

  /** No cancel that was seen so far covers the prompt: it carries a handle above every
      mark, or waits with a tracked sequence outside any Cancel. */
  ghost predicate Untouched(w: World, p: nat) {
    && p in w.places && p in w.chains
    && var s := w.chains[p].session;
       match w.places[p] {
         case Pending(c) =>
           && c in w.chains && HasCall(w.chains[c].phase) && w.chains[c].phase.call.accepted.Some?
           && MarkOf(w.agent, s) < w.chains[c].phase.call.accepted.value
           && (s in w.cancels ==> w.cancels[s].gen < w.chains[c].phase.call.accepted.value)
         case Waiting =>
           s !in w.cancels && forall call | call in QueueOf(w.agent, s) && call.prompt == p :: call.acceptSeq > 0
         case _ => true
       }
  }

  /** The step cancels the prompt on entry. */
  ghost predicate CancelsOnEntry(w: World, e: Event, p: nat) {
    && e.Enter? && e.chain in w.chains && HasCall(w.chains[e.chain].phase)
    && w.chains[e.chain].phase.call.prompt == p
    && Decide(w.agent, w.chains[e.chain].phase.call) == CancelOnEntry
  }

  /** The step removes the prompt from the queue without running it or folding it. */
  ghost predicate Drops(w: World, e: Event, w': World, p: nat) {
    && p in w.places && w.places[p] == Waiting
    && p in w'.places && w'.places[p].Finished? && !FoldedBy(w, e, p)
  }

  lemma AcceptIsUntouched(w: World, p: nat, s: string, runID: string)
    requires Enabled(w, Accept(p, s, runID)) && Inv(w)
    ensures Untouched(Step(w, Accept(p, s, runID)), p)
  {
  }

  /** Only the end of a Cancel raises a mark, to at most what that Cancel read. */
  lemma MarkBound(w: World, e: Event, s: string)
    requires Enabled(w, e) && AgentInv(w.agent)
    ensures var m, m' := MarkOf(w.agent, s), MarkOf(Step(w, e).agent, s);
      m' <= m || (e == CancelFinish(s) && m' <= w.cancels[s].gen)
  {
    hide AgentInv, StepEnter, EnterRun, CloseOf, StepHandOff;
    match e
    case Enter(c, persistFails) =>
      EnterEffect(w, c, persistFails);
      EnterMarkBound(w.agent, w.chains[c].phase.call, |w.runOwner|, s);
    case HandOff(c) => HandOffMarkBound(w, c, s);
    case ReleaseHandle(c) => CloseMarkBound(w.agent, w.chains[c].handle, s);
    case CancelFinish(t) => assert Step(w, e).agent == RaiseAndClear(w.agent, t, w.cancels[t]);
    case _ => OtherKeepsMark(w, e);
  }

  lemma CloseMarkBound(a: Agent, hh: Option<nat>, s: string)
    ensures MarkOf(CloseOf(a, hh), s) <= MarkOf(a, s)
  {
  }

  lemma EnterMarkBound(a: Agent, call: Call, run: nat, s: string)
    ensures MarkOf(EnterRun(a, call, run), s) <= MarkOf(a, s)
  {
  }

  lemma HandOffMarkBound(w: World, c: nat, s: string)
    requires c in w.chains && w.chains[c].phase.Completing?
    ensures MarkOf(StepHandOff(w, c).agent, s) <= MarkOf(w.agent, s)
  {
    hide Settle, Survivors;
  }

  /** Between steps a Cancel either is in progress with the same reading, or starts. */
  lemma CancelReadFrom(w: World, e: Event, s: string)
    requires Enabled(w, e) && e != CancelStart(s) && s in Step(w, e).cancels
    ensures s in w.cancels && Step(w, e).cancels[s] == w.cancels[s]
  {
    hide Step, Enabled;
    CancelsFrom(w, e);
  }

  /** Every queued call was queued before the step, or joins the queue in it. */
  lemma QueueFrom(w: World, e: Event, s: string, call: Call)
    requires Enabled(w, e)
    requires call in QueueOf(Step(w, e).agent, s)
    ensures call in QueueOf(w.agent, s) ||
            (e.Enter? && call == QueuedForm(w.chains[e.chain].phase.call)
             && Decide(w.agent, w.chains[e.chain].phase.call) == JoinQueue)
  {
    hide Prompts, StepEnter, StepHandOff, StepDrain;
    match e
    case Enter(c, persistFails) =>
      EnterEffect(w, c, persistFails);
      QueueAfterEnter(w.agent, w.chains[c].phase.call, |w.runOwner|, s, call);
    case HandOff(c) => QueueAfterHandOff(w, c, s, call);
    case DrainStep(c) => QueueAfterDrain(w, w.chains[c].session, s, call);
    case _ =>
      hide Step;
      QueueAfterOther(w, e, s, call);
  }

  lemma QueueAfterOther(w: World, e: Event, s: string, call: Call)
    requires Enabled(w, e) && !e.Enter? && !e.HandOff? && !e.DrainStep?
    requires call in QueueOf(Step(w, e).agent, s)
    ensures call in QueueOf(w.agent, s)
  {
    AgentStep(w, e);
    hide Step;
  }

  lemma QueueAfterEnter(a: Agent, c: Call, run: nat, s: string, call: Call)
    requires call in QueueOf(EnterRun(a, c, run), s)
    ensures call in QueueOf(a, s) || (call == QueuedForm(c) && Decide(a, c) == JoinQueue)
  {
  }

  lemma QueueAfterDrain(w: World, t: string, s: string, call: Call)
    requires call in QueueOf(StepDrain(w, t).agent, s)
    ensures call in QueueOf(w.agent, s)
  {
  }

  lemma QueueAfterHandOff(w: World, c: nat, s: string, call: Call)
    requires c in w.chains && w.chains[c].phase.Completing?
    requires call in QueueOf(StepHandOff(w, c).agent, s)
    ensures call in QueueOf(w.agent, s)
  {
    hide StepHandOff, Survivors;
    AgentAfterHandOff(w, c);
    var t := w.chains[c].session;
    assert forall x | x in Survivors(w.agent, t) :: x in QueueOf(w.agent, t) by { SurvivorsWereQueued(w.agent, t); }
  }

  lemma SurvivorsWereQueued(a: Agent, s: string)
    ensures forall x | x in Survivors(a, s) :: x in QueueOf(a, s)
  {
  }

  /** A prompt dropped from a queue was covered by the mark, or the queue was cleared. */
  lemma DroppedWasCovered(w: World, e: Event, p: nat)
    requires Enabled(w, e) && Inv(w) && Drops(w, e, Step(w, e), p) && p in w.chains
    ensures e == CancelFinish(w.chains[p].session) || e == ClearQueued(w.chains[p].session)
         || exists call :: call in QueueOf(w.agent, w.chains[p].session) && call.prompt == p
                           && CoveredBy(MarkOf(w.agent, w.chains[p].session), call.acceptSeq)
  {
    hide Inv, Step, FoldedBy;
    var s := w.chains[p].session;
    StepMoves(w, e, p);
    QueuesInvOf(w);
    match e
    case DrainStep(c) =>
      DrainDrops(w, c, p);
    case HandOff(c) => HandOffDrops(w, c, p);
    case CancelFinish(t) => ClearDrops(w, e, t, p);
    case ClearQueued(t) => ClearDrops(w, e, t, p);
  }

  lemma QueuesInvOf(w: World)
    requires Inv(w)
    ensures QueuesInv(w) && w.places.Keys == w.chains.Keys
  {
  }

  lemma DrainDrops(w: World, c: nat, p: nat)
    requires Enabled(w, DrainStep(c)) && QueuesInv(w) && p in w.chains && p in w.places && w.places[p] == Waiting
    requires Step(w, DrainStep(c)).places[p].Finished? && !FoldedBy(w, DrainStep(c), p)
    ensures exists call :: call in QueueOf(w.agent, w.chains[p].session) && call.prompt == p
                           && CoveredBy(MarkOf(w.agent, w.chains[p].session), call.acceptSeq)
  {
  }

  lemma HandOffDrops(w: World, c: nat, p: nat)
    requires Enabled(w, HandOff(c)) && Inv(w) && p in w.chains && p in w.places && w.places[p] == Waiting
    requires p in Step(w, HandOff(c)).places && Step(w, HandOff(c)).places[p].Finished?
    ensures exists call :: call in QueueOf(w.agent, w.chains[p].session) && call.prompt == p
                           && CoveredBy(MarkOf(w.agent, w.chains[p].session), call.acceptSeq)
  {
    hide Inv, MidHandOff, StepHandOff, HandIdle, HandNext, Survivors, At, Here, NextFacts;
    var mid := MidHandOff(w, c);
    MidKeeps(w, c);
    MidMoves(w, HandOff(c), c, p);
    LocalizeBoth(mid, c, p);
    if mid.places[p] == Waiting {
      if Survivors(w.agent, w.chains[c].session) == [] {
        HandOffIsIdle(w, c);
        IdleLeavesWaiting(mid, c, p);
      } else {
        HandOffIsNext(w, c);
        KnowNextOf(mid, c);
        NextLeavesWaiting(mid, c, p);
      }
    }
    QueuesInvOf(w);
    MidDrops(w, c, p);
  }

  lemma IdleLeavesWaiting(w: World, c: nat, p: nat)
    requires At(w, c) && w.chains[c].phase.Completing? && p in w.places && w.places[p] == Waiting
    ensures HandIdle(w, c).places[p] == Waiting
  {
  }

  lemma NextLeavesWaiting(w: World, c: nat, p: nat)
    requires At(w, c) && w.chains[c].phase.Completing? && p in w.places && w.places[p] == Waiting
    requires QueueOf(w.agent, w.chains[c].session) != [] && NextFacts(w, c)
    ensures p in HandNext(w, c).places && !HandNext(w, c).places[p].Finished?
  {
  }

  lemma MidDrops(w: World, c: nat, p: nat)
    requires c in w.chains && QueuesInv(w) && p in w.chains && p in w.places && w.places[p] == Waiting
    requires p in MidHandOff(w, c).places && MidHandOff(w, c).places[p] != Waiting
    ensures exists call :: call in QueueOf(w.agent, w.chains[p].session) && call.prompt == p
                           && CoveredBy(MarkOf(w.agent, w.chains[p].session), call.acceptSeq)
  {
  }

  lemma ClearDrops(w: World, e: Event, t: string, p: nat)
    requires e == CancelFinish(t) || e == ClearQueued(t)
    requires Enabled(w, e) && QueuesInv(w) && p in w.chains && p in w.places && w.places[p] == Waiting
    requires p in Step(w, e).places && Step(w, e).places[p] != Waiting
    ensures w.chains[p].session == t
  {
  }

  /** A tracked queued call is above its session's mark. */
  lemma QueuedAboveMark(w: World, s: string, call: Call)
    requires Inv(w) && call in QueueOf(w.agent, s)
    ensures call.acceptSeq <= w.agent.gen && (call.acceptSeq == 0 || MarkOf(w.agent, s) < call.acceptSeq)
    ensures call.prompt in w.places && w.places[call.prompt] == Waiting && w.chains[call.prompt].session == s
  {
  }

  /** What the step does to an untouched prompt. */
  lemma UntouchedKept(w: World, e: Event, p: nat)
    requires Enabled(w, e) && Inv(w) && Untouched(w, p)
    requires e != CancelStart(w.chains[p].session) && e != ClearQueued(w.chains[p].session)
    ensures Untouched(Step(w, e), p)
    ensures !CancelsOnEntry(w, e, p) && !Drops(w, e, Step(w, e), p)
  {
    hide Inv, Step, FoldedBy, EnterRun, Drops;
    var s := w.chains[p].session;
    var w' := Step(w, e);
    StepKeeps(w, e);
    StepMoves(w, e, p);
    AgentInvOf(w);
    MarkBound(w, e, s);
    if s in w'.cancels { CancelReadFrom(w, e, s); }
    UntouchedNotCanceled(w, e, p);
    UntouchedNotDropped(w, e, p);
    match w.places[p]
    case Pending(c) =>
      PendingAt(w, p);
      if w'.places[p] == Waiting { UntouchedJoins(w, e, c, p); }
      else if TakesUp(e, c) { RefusedIsOwn(w, c); TakeUpLands(w, e, c, p); }
    case Waiting =>
      if w'.places[p].Pending? {
        PendingAt(w', p);
        HandOffSession(w, e);
      } else if w'.places[p] == Waiting {
        UntouchedWaits(w, e, p);
      }
    case _ =>
  }

  lemma TakeUpLands(w: World, e: Event, c: nat, p: nat)
    requires Enabled(w, e) && TakesUp(e, c) && c in w.chains
    requires BeforeEntry(w.chains[c].phase) && w.chains[c].phase.call.prompt == p
    requires e.Refuse? ==> p == c
    ensures p in Step(w, e).places && !Step(w, e).places[p].Pending?
  {
    hide StepEnter;
    if e.Enter? { EnterLands(w, c, e.persistFails); }
  }

  lemma EnterLands(w: World, c: nat, persistFails: bool)
    requires c in w.chains && BeforeEntry(w.chains[c].phase)
    ensures var w' := StepEnter(w, c, persistFails); var p := w.chains[c].phase.call.prompt;
      p in w'.places && (w'.places[p] == Waiting || w'.places[p] == Running(c)
                         || w'.places[p] == Finished(Published) || w'.places[p] == Finished(Buffered(c)))
  {
    hide EnterRun, Decide;
  }

  lemma UntouchedNotCanceled(w: World, e: Event, p: nat)
    requires Enabled(w, e) && Inv(w) && Untouched(w, p)
    ensures !CancelsOnEntry(w, e, p)
  {
    hide Inv;
    if CancelsOnEntry(w, e, p) {
      EnterPlace(w, e.chain);
      PendingAt(w, p);
    }
  }

  lemma EnterPlace(w: World, c: nat)
    requires Inv(w) && c in w.chains && BeforeEntry(w.chains[c].phase)
    ensures var p := w.chains[c].phase.call.prompt; p in w.places && w.places[p] == Pending(c)
  {
  }

  lemma UntouchedNotDropped(w: World, e: Event, p: nat)
    requires Enabled(w, e) && Inv(w) && Untouched(w, p)
    requires e != ClearQueued(w.chains[p].session)
    ensures !Drops(w, e, Step(w, e), p)
  {
    hide Inv, Step, FoldedBy;
    if Drops(w, e, Step(w, e), p) {
      DroppedWasCovered(w, e, p);
      if e != CancelFinish(w.chains[p].session) {
        var call :| call in QueueOf(w.agent, w.chains[p].session) && call.prompt == p
                    && CoveredBy(MarkOf(w.agent, w.chains[p].session), call.acceptSeq);
        QueuedAboveMark(w, w.chains[p].session, call);
      }
    }
  }

  /** Joining the queue: the queued form keeps the handle's sequence. */
  lemma UntouchedJoins(w: World, e: Event, c: nat, p: nat)
    requires Enabled(w, e) && Inv(w) && Untouched(w, p) && w.places[p] == Pending(c)
    requires p in Step(w, e).places && Step(w, e).places[p] == Waiting
    requires TakesUp(e, c)
    ensures w.chains[p].session !in Step(w, e).cancels
    ensures forall call |
      call in QueueOf(Step(w, e).agent, w.chains[p].session) && call.prompt == p :: call.acceptSeq > 0
  {
    hide Inv, Step;
    PendingAt(w, p);
    RefusedIsOwn(w, c);
    EnterIsTheOne(w, e, c, p);
    forall call | call in QueueOf(Step(w, e).agent, w.chains[p].session) && call.prompt == p
      ensures call.acceptSeq > 0 {
      QueueFrom(w, e, w.chains[p].session, call);
      if call in QueueOf(w.agent, w.chains[p].session) { QueuedAboveMark(w, w.chains[p].session, call); }
    }
  }

  lemma EnterIsTheOne(w: World, e: Event, c: nat, p: nat)
    requires Enabled(w, e) && TakesUp(e, c) && c in w.chains && BeforeEntry(w.chains[c].phase)
    requires w.chains[c].phase.call.prompt == p && (w.chains[c].phase.Dispatched? ==> p == c)
    requires p in Step(w, e).places && Step(w, e).places[p] == Waiting
    ensures e.Enter? && Step(w, e).cancels == w.cancels && w.chains[c].session !in w.cancels
  {
  }

  lemma UntouchedWaits(w: World, e: Event, p: nat)
    requires Enabled(w, e) && Inv(w) && Untouched(w, p) && w.places[p] == Waiting
    requires e != CancelStart(w.chains[p].session)
    ensures w.chains[p].session !in Step(w, e).cancels
    ensures forall call |
      call in QueueOf(Step(w, e).agent, w.chains[p].session) && call.prompt == p :: call.acceptSeq > 0
  {
    hide Inv, Step;
    var s := w.chains[p].session;
    if s in Step(w, e).cancels { CancelReadFrom(w, e, s); }
    forall call | call in QueueOf(Step(w, e).agent, s) && call.prompt == p ensures call.acceptSeq > 0 {
      QueueFrom(w, e, s, call);
      if e.Enter? { EnterPlace(w, e.chain); }
    }
  }

  lemma {:induction false} AfterAccept(ws: seq<World>, es: seq<Event>, p: nat, s: string, runID: string, i: nat, k: nat)
    requires IsRun(ws, es) && i < k < |ws| && es[i] == Accept(p, s, runID)
    requires forall m | i < m < k :: es[m] != CancelStart(s) && es[m] != ClearQueued(s)
    ensures Untouched(ws[k], p) && ws[k].chains[p].session == s
    decreases k
  {
    hide Inv, Enabled, Untouched;
    RunKeeps(ws, es, k - 1);
    if k == i + 1 {
      AcceptIsUntouched(ws[i], p, s, runID);
    } else {
      AfterAccept(ws, es, p, s, runID, i, k - 1);
      UntouchedIsThere(ws[k - 1], p);
      UntouchedKept(ws[k - 1], es[k - 1], p);
      SessionStays(ws[k - 1], es[k - 1], p);
    }
  }

  lemma UntouchedIsThere(w: World, p: nat)
    requires Untouched(w, p)
    ensures p in w.chains && p in w.places
  {
  }

  /** A Cancel never poisons a later prompt: whatever was cancelled before, a prompt
      accepted with a handle is neither cancelled on entry nor dropped from the queue as
      long as no Cancel of its session starts and its queue is not cleared. */
  lemma CancelSparesLaterPrompts(ws: seq<World>, es: seq<Event>, p: nat, s: string, runID: string, i: nat, k: nat)
    requires IsRun(ws, es) && i < k < |es| && es[i] == Accept(p, s, runID)
    requires forall m | i < m <= k :: es[m] != CancelStart(s) && es[m] != ClearQueued(s)
    ensures !CancelsOnEntry(ws[k], es[k], p) && !Drops(ws[k], es[k], ws[k + 1], p)
  {
    hide Inv, Step, Enabled, Drops;
    RunKeeps(ws, es, k);
    AfterAccept(ws, es, p, s, runID, i, k);
    UntouchedKept(ws[k], es[k], p);
  }

  // ------------------------------------------------------------ conservation of prompts

  ghost predicate CarriedBefore(w: World, c: nat, p: nat) {
    c in w.chains && BeforeEntry(w.chains[c].phase) && w.chains[c].phase.call.prompt == p
  }

  ghost predicate CarriedInTurn(w: World, c: nat, p: nat) {
    && c in w.chains && (Registered(w.chains[c].phase) || w.chains[c].phase.Completing?)
    && w.chains[c].phase.call.prompt == p
  }

  ghost predicate QueuedAt(w: World, s: string, k: nat, p: nat) {
    k < |QueueOf(w.agent, s)| && QueueOf(w.agent, s)[k].prompt == p
  }

  /** The prompt is nowhere: no goroutine carries it and no queue holds it. */
  ghost predicate IsFinished(w: World, p: nat) {
    && (forall c :: !CarriedBefore(w, c, p) && !CarriedInTurn(w, c, p))
    && (forall s, k :: !QueuedAt(w, s, k, p))
  }

  /** Where the history puts a prompt is where it really is, and only there. */
  lemma PlaceIsReal(w: World, p: nat)
    requires Inv(w) && p in w.places
    ensures forall c :: CarriedBefore(w, c, p) <==> w.places[p] == Pending(c)
    ensures forall c :: CarriedInTurn(w, c, p) <==> w.places[p] == Running(c)
    ensures forall s, k :: QueuedAt(w, s, k, p) ==> w.places[p] == Waiting && s == w.chains[p].session
    ensures w.places[p] == Waiting ==> exists k :: QueuedAt(w, w.chains[p].session, k, p)
    ensures IsFinished(w, p) <==> w.places[p].Finished?
  {
    forall c ensures CarriedBefore(w, c, p) <==> w.places[p] == Pending(c) {
      if CarriedBefore(w, c, p) { assert Places(w, c); }
      if w.places[p] == Pending(c) { assert Placed(w, p); }
    }
    forall c ensures CarriedInTurn(w, c, p) <==> w.places[p] == Running(c) {
      if CarriedInTurn(w, c, p) { assert Places(w, c); }
      if w.places[p] == Running(c) { assert Placed(w, p); }
    }
    forall s, k: nat | QueuedAt(w, s, k, p) ensures w.places[p] == Waiting && s == w.chains[p].session {
      assert QueueOf(w.agent, s)[k] in QueueOf(w.agent, s);
      assert QueuedHere(w, s, QueueOf(w.agent, s)[k]);
    }
    if w.places[p] == Waiting {
      assert Placed(w, p);
      assert p in Prompts(QueueOf(w.agent, w.chains[p].session));
      var call :| call in QueueOf(w.agent, w.chains[p].session) && call.prompt == p;
      var k :| 0 <= k < |QueueOf(w.agent, w.chains[p].session)| && QueueOf(w.agent, w.chains[p].session)[k] == call;
      assert QueuedAt(w, w.chains[p].session, k, p);
    }
    match w.places[p]
    case Pending(c) => assert CarriedBefore(w, c, p);
    case Running(c) => assert CarriedInTurn(w, c, p);
    case Waiting =>
      var k :| QueuedAt(w, w.chains[p].session, k, p);
    case Finished(_) =>
  }

  /** Conservation: in every reachable state a prompt is pending with one goroutine, or
      carried by one turn, or in one queue slot, or finished, and never two of these; at
      most one RunComplete was published for it, and none unless it is finished. */
  lemma PromptsAreConserved(ws: seq<World>, es: seq<Event>, i: nat, p: nat)
    requires IsRun(ws, es) && i < |ws| && p in ws[i].chains
    ensures var w := ws[i];
      && (forall c, d ::
            (CarriedBefore(w, c, p) || CarriedInTurn(w, c, p)) && (CarriedBefore(w, d, p) || CarriedInTurn(w, d, p))
            ==> c == d)
      && (forall c :: !(CarriedBefore(w, c, p) && CarriedInTurn(w, c, p)))
      && (forall c, s, k :: !((CarriedBefore(w, c, p) || CarriedInTurn(w, c, p)) && QueuedAt(w, s, k, p)))
      && (forall s, k, t, l :: QueuedAt(w, s, k, p) && QueuedAt(w, t, l, p) ==> s == t && k == l)
      && w.published[p] <= 1
      && (w.published[p] == 1 ==> IsFinished(w, p))
  {
    hide Inv;
    RunKeeps(ws, es, i);
    QueuesInvOf(ws[i]);
    PlaceIsReal(ws[i], p);
    EventCount(ws[i], p);
  }

  lemma EventCount(w: World, p: nat)
    requires Inv(w)
    ensures w.published[p] == if p in w.places && w.places[p] == Finished(Published) then 1 else 0
  {
  }

  /** A prompt with a RunID is never folded into another turn. */
  lemma RunIDsAreNeverFolded(ws: seq<World>, es: seq<Event>, i: nat, p: nat)
    requires IsRun(ws, es) && i < |es| && p in ws[i].chains && ws[i].chains[p].runID != ""
    ensures !FoldedBy(ws[i], es[i], p)
  {
    hide Inv;
    RunKeeps(ws, es, i);
    if FoldedBy(ws[i], es[i], p) { FoldedWaits(ws[i], es[i], p); }
  }

  /** The step ends the prompt before the RunComplete defer is installed, on a path from
      which runAgent's fallback does not speak for it: the run was cancelled, or it is not
      the goroutine's own prompt, or there is no runAgent around it. */
  ghost predicate EndsUnreported(w: World, e: Event, p: nat) {
    && (e.FailBeforeRun? || e.LookupFails?)
    && e.chain in w.chains && HasCall(w.chains[e.chain].phase) && w.chains[e.chain].phase.call.prompt == p
    && (e.stopped || e.chain != p || !w.chains[e.chain].backend)
  }

  /** SendMessage told the caller synchronously that the workspace is closing. */
  ghost predicate IsRefused(w: World, e: Event, p: nat) { e == Refuse(p) }

  lemma FateFrom(w: World, e: Event, p: nat)
    requires Enabled(w, e) && Inv(w) && p in w.places && p in w.chains && w.chains[p].runID != ""
    ensures p in Step(w, e).places && FateStep(w, e, Step(w, e), p)
  {
    hide Inv, Step, FateStep;
    PlaceFacts(w, p);
    if e.Accept? || e.SubmitLocal? { FateNew(w, e, p); }
    else if e.DrainStep? || e.CancelFinish? || e.ClearQueued? || e.CancelStart? { FateQueue(w, e, p); }
    else {
      Localize(w, e.chain);
      if e.HandOff? { FateHandOff(w, e, p); }
      else if e.Enter? { FateEnter(w, e, p); }
      else if e.FailBeforeRun? || e.LookupFails? || e.Refuse? { FateFails(w, e, p); }
      else if e.LookupsDone? || e.StreamFails? || e.CompletionDel? { FateTurn(w, e, p); }
      else if e.CoordinatorReturns? || e.BackendReturns? { FateReturn(w, e, p); }
      else { FateCleanup(w, e, p); }
    }
  }

  lemma PlaceFacts(w: World, p: nat)
    requires Inv(w) && p in w.places
    ensures Here(w, p) && FateKept(w, p) && p in w.chains
  {
  }

  ghost predicate FateStep(w: World, e: Event, w': World, p: nat)
    requires p in w.places && p in w'.places
  {
    && (w'.places[p] == Finished(Lost) <==> w.places[p] == Finished(Lost) || EndsUnreported(w, e, p))
    && (w'.places[p] == Finished(Refused) <==> w.places[p] == Finished(Refused) || IsRefused(w, e, p))
  }

  lemma FateNew(w: World, e: Event, p: nat)
    requires (e.Accept? || e.SubmitLocal?) && Enabled(w, e) && Here(w, p)
    ensures p in Step(w, e).places && FateStep(w, e, Step(w, e), p)
  {
  }

  lemma FateQueue(w: World, e: Event, p: nat)
    requires e.DrainStep? || e.CancelFinish? || e.ClearQueued? || e.CancelStart?
    requires Enabled(w, e) && Inv(w) && p in w.places
    ensures p in Step(w, e).places && FateStep(w, e, Step(w, e), p)
  {
    hide AgentInv, CancelsInv, HandlesInv, RunsInv, CallsInv, PlacesInv, TerminalInv, QueuesInv, Splits,
      EventsFor, Prompts, FateStep;
    match e
    case DrainStep(c) =>
      var s := w.chains[c].session;
      var q, m := QueueOf(w.agent, s), MarkOf(w.agent, s);
      DrainSplits(w, s);
      SettleFate(
        w, Step(w, e), e, s, Select(q, m, true, Keep), Select(q, m, true, Announce),
        Select(q, m, true, Discard) + Select(q, m, true, Fold), p);
    case CancelFinish(s) =>
      var q := QueueOf(w.agent, s);
      ClearSplits(w, s);
      SettleFate(w, Step(w, e), e, s, [], WithRunID(q), Filter(q, (c: Call) => c.runID == ""), p);
    case ClearQueued(s) =>
      var q := QueueOf(w.agent, s);
      ClearSplits(w, s);
      SettleFate(w, Step(w, e), e, s, [], WithRunID(q), Filter(q, (c: Call) => c.runID == ""), p);
    case CancelStart(_) => SamePlaceSameFate(w, Step(w, e), e, p);
  }

  lemma SettleFate(
      w: World, w': World, e: Event, s: string, keep: seq<Call>, told: seq<Call>, untold: seq<Call>, p: nat)
    requires DropsCalls(e) && QueuesInv(w) && p in w.places && Splits(QueueOf(w.agent, s), keep, told, untold)
    requires w'.places == Settle(w, told, untold).places
    ensures p in w'.places && FateStep(w, e, w', p)
  {
  }

  lemma SamePlaceSameFate(w: World, w': World, e: Event, p: nat)
    requires e.CancelStart? && w'.places == w.places && p in w.places
    ensures FateStep(w, e, w', p)
  {
  }

  lemma FateEnter(w: World, e: Event, p: nat)
    requires e.Enter? && Enabled(w, e) && At(w, e.chain) && Here(w, p)
    ensures p in Step(w, e).places && FateStep(w, e, Step(w, e), p)
  {
    hide OwnsHandle, OwnsRuns, HasCleaner, FateKept, Bookkeeping, CarriesCall, StepEnter, EnterRun;
    EnterEffect(w, e.chain, e.persistFails);
    EnterLands(w, e.chain, e.persistFails);
  }

  lemma FateFails(w: World, e: Event, p: nat)
    requires (e.FailBeforeRun? || e.LookupFails? || e.Refuse?) && Enabled(w, e)
    requires At(w, e.chain) && Here(w, p) && w.chains[p].runID != ""
    ensures p in Step(w, e).places && FateStep(w, e, Step(w, e), p)
  {
  }

  lemma FateTurn(w: World, e: Event, p: nat)
    requires (e.LookupsDone? || e.StreamFails? || e.CompletionDel?) && Enabled(w, e)
    requires At(w, e.chain) && Here(w, p)
    ensures p in Step(w, e).places && FateStep(w, e, Step(w, e), p)
  {
  }

  lemma FateReturn(w: World, e: Event, p: nat)
    requires (e.CoordinatorReturns? || e.BackendReturns?) && Enabled(w, e)
    requires At(w, e.chain) && Here(w, p)
    ensures p in Step(w, e).places && FateStep(w, e, Step(w, e), p)
  {
  }

  lemma FateCleanup(w: World, e: Event, p: nat)
    requires (e.Cleanup? || e.ReleaseHandle?) && Enabled(w, e) && p in w.places
    ensures p in Step(w, e).places && FateStep(w, e, Step(w, e), p)
  {
  }

  lemma FateHandOff(w: World, e: Event, p: nat)
    requires e.HandOff? && Enabled(w, e) && Inv(w) && p in w.places
    ensures p in Step(w, e).places && FateStep(w, e, Step(w, e), p)
  {
    hide Inv, MidHandOff, StepHandOff, HandIdle, HandNext, Survivors, At, Here, NextFacts;
    var c := e.chain;
    var mid := MidHandOff(w, c);
    MidKeeps(w, c);
    QueuesInvOf(w);
    MidFate(w, c, p);
    if Survivors(w.agent, w.chains[c].session) == [] {
      HandOffIsIdle(w, c);
      LocalizeBoth(mid, c, p);
      IdleFate(mid, c, p);
    } else {
      HandOffIsNext(w, c);
      LocalizeBoth(mid, c, p);
      KnowNextOf(mid, c);
      NextFate(mid, c, p);
    }
  }

  lemma MidFate(w: World, c: nat, p: nat)
    requires c in w.chains && QueuesInv(w) && p in w.places
    ensures var mid := MidHandOff(w, c);
      p in mid.places && (mid.places[p] == w.places[p] || (w.places[p] == Waiting && mid.places[p].Finished?
        && mid.places[p] != Finished(Lost) && mid.places[p] != Finished(Refused)))
  {
  }

  lemma IdleFate(w: World, c: nat, p: nat)
    requires At(w, c) && w.chains[c].phase.Completing? && Here(w, p)
    ensures var v := HandIdle(w, c);
      && p in v.places
      && (v.places[p] == Finished(Lost) <==> w.places[p] == Finished(Lost))
      && (v.places[p] == Finished(Refused) <==> w.places[p] == Finished(Refused))
  {
  }

  lemma NextFate(w: World, c: nat, p: nat)
    requires At(w, c) && w.chains[c].phase.Completing? && Here(w, p)
    requires QueueOf(w.agent, w.chains[c].session) != [] && NextFacts(w, c)
    ensures var v := HandNext(w, c);
      && p in v.places
      && (v.places[p] == Finished(Lost) <==> w.places[p] == Finished(Lost))
      && (v.places[p] == Finished(Refused) <==> w.places[p] == Finished(Refused))
  {
  }

  /** When the history says Lost or Refused, exactly such a step happened. */
  lemma {:induction false} FateHistory(ws: seq<World>, es: seq<Event>, i: nat, p: nat)
    requires IsRun(ws, es) && i < |ws| && p in ws[i].chains && ws[i].chains[p].runID != ""
    ensures p in ws[i].places
    ensures ws[i].places[p] == Finished(Lost) <==> exists k: nat :: k < i && EndsUnreported(ws[k], es[k], p)
    ensures ws[i].places[p] == Finished(Refused) <==> exists k: nat :: k < i && IsRefused(ws[k], es[k], p)
  {
    hide Inv, Step, Enabled, EndsUnreported, IsRefused;
    RunKeeps(ws, es, i);
    QueuesInvOf(ws[i]);
    if i == 0 {
    } else {
      RunKeeps(ws, es, i - 1);
      QueuesInvOf(ws[i - 1]);
      if p in ws[i - 1].chains {
        SessionStays(ws[i - 1], es[i - 1], p);
        FateHistory(ws, es, i - 1, p);
        FateFrom(ws[i - 1], es[i - 1], p);
      } else {
        NotThereBefore(ws, es, i - 1, p);
        JustArrived(ws[i - 1], es[i - 1], p);
      }
    }
  }

  lemma JustArrived(w: World, e: Event, p: nat)
    requires Enabled(w, e) && Inv(w) && p !in w.chains && p in Step(w, e).chains
    ensures p in Step(w, e).places && !Step(w, e).places[p].Finished?
    ensures !EndsUnreported(w, e, p) && !IsRefused(w, e, p)
  {
    hide Inv, Step;
    ChainsAfter(w, e);
    NewPlace(w, e, p);
  }

  lemma NewPlace(w: World, e: Event, p: nat)
    requires Enabled(w, e) && (e.Accept? || e.SubmitLocal?) && e.prompt == p
    ensures p in Step(w, e).places && !Step(w, e).places[p].Finished?
  {
  }

  /** Goroutines are never removed, and only a submission adds one. */
  lemma ChainsAfter(w: World, e: Event)
    requires Enabled(w, e)
    ensures Step(w, e).chains.Keys ==
            w.chains.Keys + if e.Accept? || e.SubmitLocal? then {e.prompt} else {}
  {
    hide EventsFor, Prompts, Select, Survivors, HandoffIdle, HandoffNext, Owes, EnterRun, CloseOf, StepEnter,
      StepHandOff, Emit, Settle;
    match e
    case Enter(c, persistFails) => EnterEffect(w, c, persistFails);
    case HandOff(c) => HandOffChains(w, c);
    case StreamFails(c, stopped) =>
      EmitEffect(WithPhase(w, c, Unwinding(FailOutcome(stopped))), c, w.chains[c].phase.call);
    case _ => OtherChains(w, e);
  }

  lemma OtherChains(w: World, e: Event)
    requires Enabled(w, e) && !e.Enter? && !e.HandOff? && !e.StreamFails?
    ensures Step(w, e).chains.Keys ==
            w.chains.Keys + if e.Accept? || e.SubmitLocal? then {e.prompt} else {}
  {
    hide EventsFor, Prompts, Select, WithRunID, Drain, UnreportedPlace, FailOutcome, CloseOf, CompareAndDelete,
      RaiseAndClear, ClearQueue, StopActive;
  }

  lemma HandOffChains(w: World, c: nat)
    requires c in w.chains && w.chains[c].phase.Completing?
    ensures StepHandOff(w, c).chains.Keys == w.chains.Keys
  {
  }

  /** Before a prompt is submitted, no step speaks about it. */
  lemma {:induction false} NotThereBefore(ws: seq<World>, es: seq<Event>, i: nat, p: nat)
    requires IsRun(ws, es) && i < |ws| && p !in ws[i].chains
    ensures forall k: nat | k < i :: !EndsUnreported(ws[k], es[k], p) && !IsRefused(ws[k], es[k], p)
  {
    hide Inv, Step, Enabled, EndsUnreported, IsRefused;
    if i == 0 {
    } else {
      RunKeeps(ws, es, i - 1);
      if p in ws[i - 1].chains {
        SessionStays(ws[i - 1], es[i - 1], p);
      } else {
        NotThereBefore(ws, es, i - 1, p);
        AbsentIsSilent(ws[i - 1], es[i - 1], p);
      }
    }
  }

  lemma AbsentIsSilent(w: World, e: Event, p: nat)
    requires Inv(w) && Enabled(w, e) && p !in w.chains
    ensures !EndsUnreported(w, e, p) && !IsRefused(w, e, p)
  {
  }

  /** Exactly one terminal event: once a prompt with a RunID is finished and its own
      goroutine is gone, one RunComplete was published for it, if and only if the caller
      was not refused synchronously and the prompt did not end unreported. */
  lemma FinishedMeansOneEvent(ws: seq<World>, es: seq<Event>, i: nat, p: nat)
    requires IsRun(ws, es) && i < |ws| && p in ws[i].chains && ws[i].chains[p].runID != ""
    requires IsFinished(ws[i], p) && ws[i].chains[p].phase.Gone?
    ensures ws[i].published[p] ==
            if exists k: nat :: k < i && (EndsUnreported(ws[k], es[k], p) || IsRefused(ws[k], es[k], p)) then 0 else 1
  {
    hide Inv, Step, Enabled, EndsUnreported, IsRefused;
    RunKeeps(ws, es, i);
    QueuesInvOf(ws[i]);
    PlaceIsReal(ws[i], p);
    EventCount(ws[i], p);
    FateHistory(ws, es, i, p);
    PlaceFacts(ws[i], p);
  }

  // ---------------------------------------------------------- queue and run identities

  /** acceptedRuns counts the open handles, every mark is at most the generator, and a
      mark is above no tracked queued call, in every reachable state. */
  lemma AcceptCountsAndMarks(ws: seq<World>, es: seq<Event>, i: nat, s: string)
    requires IsRun(ws, es) && i < |ws|
    ensures var a := ws[i].agent;
      && Lookup(a.accepted, s, 0) == |OpenHandles(a.open, s)|
      && MarkOf(a, s) <= a.gen
      && (forall h | h in a.open :: 0 < h <= a.gen)
      && (forall call | call in QueueOf(a, s) && call.acceptSeq > 0 :: MarkOf(a, s) < call.acceptSeq <= a.gen)
  {
    RunKeeps(ws, es, i);
    assert forall call | call in QueueOf(ws[i].agent, s) :: WellQueued(ws[i].agent, s, call);
  }

  /** A mark that covers an open handle stays until that handle closes. */
  lemma MarkStaysWhileOpen(ws: seq<World>, es: seq<Event>, i: nat, s: string, h: nat)
    requires IsRun(ws, es) && i < |es|
    requires h in ws[i].agent.open && ws[i].agent.open[h] == s && CoveredBy(MarkOf(ws[i].agent, s), h)
    requires h in ws[i + 1].agent.open && ws[i + 1].agent.open[h] == s
    ensures CoveredBy(MarkOf(ws[i + 1].agent, s), h)
  {
    hide Inv, Step, Enabled;
    RunKeeps(ws, es, i);
    AgentInvOf(ws[i]);
    StepKeepsMark(ws[i], es[i], s, h);
  }

  /** At most one run streams per session, and the session's entry is that run's. */
  lemma OneStreamingRun(ws: seq<World>, es: seq<Event>, i: nat, c: nat, d: nat)
    requires IsRun(ws, es) && i < |ws| && c in ws[i].chains && d in ws[i].chains
    requires Registered(ws[i].chains[c].phase) && Registered(ws[i].chains[d].phase)
    requires ws[i].chains[c].session == ws[i].chains[d].session
    ensures c == d
    ensures var w := ws[i]; var s := w.chains[c].session;
      s in w.agent.active && w.agent.active[s] == w.chains[c].phase.run
  {
    RunKeeps(ws, es, i);
    assert OwnsRuns(ws[i], c) && OwnsRuns(ws[i], d);
  }

  /** The entry of `s` was registered by another goroutine than `c`. */
  ghost predicate EntryOfAnother(w: World, s: string, c: nat) {
    s in w.agent.active && w.agent.active[s] < |w.runOwner| && w.runOwner[w.agent.active[s]] != c
  }

  lemma CleanupSpares(w: World, e: Event, s: string)
    requires Enabled(w, e) && Inv(w) && (e.Cleanup? || e.CompletionDel?) && EntryOfAnother(w, s, e.chain)
    ensures s in Step(w, e).agent.active && Step(w, e).agent.active[s] == w.agent.active[s]
  {
    hide AgentInv, CancelsInv, HandlesInv, CallsInv, PlacesInv, QueuesInv, TerminalInv;
    assert OwnsRuns(w, e.chain);
  }

  /** Neither the completion Del nor a deferred cleanup of one goroutine removes an entry
      that another goroutine registered, even in the completion window. */
  lemma CleanupSparesNewerRuns(ws: seq<World>, es: seq<Event>, i: nat, s: string)
    requires IsRun(ws, es) && i < |es| && (es[i].Cleanup? || es[i].CompletionDel?)
    requires EntryOfAnother(ws[i], s, es[i].chain)
    ensures s in ws[i + 1].agent.active && ws[i + 1].agent.active[s] == ws[i].agent.active[s]
  {
    hide Inv, Step;
    RunKeeps(ws, es, i);
    CleanupSpares(ws[i], es[i], s);
  }

  lemma OwnEntry(w: World, c: nat)
    requires Enabled(w, CompletionDel(c)) && Inv(w)
    ensures var s := w.chains[c].session; s in w.agent.active && w.agent.active[s] == w.chains[c].phase.run
  {
    hide AgentInv, CancelsInv, HandlesInv, CallsInv, PlacesInv, QueuesInv, TerminalInv;
    assert OwnsRuns(w, c);
  }

  /** The completion Del is unconditional in the code, yet in every run it removes exactly the
      goroutine's own entry: it has the effect of the conditional deletion. */
  lemma CompletionDelIsConditional(ws: seq<World>, es: seq<Event>, i: nat, c: nat)
    requires IsRun(ws, es) && i < |es| && es[i] == CompletionDel(c)
    ensures Enabled(ws[i], es[i])
    ensures ws[i + 1].agent == CompareAndDelete(ws[i].agent, ws[i].chains[c].session, ws[i].chains[c].phase.run)
  {
    hide Inv;
    RunKeeps(ws, es, i);
    OwnEntry(ws[i], c);
  }

  /** A busy session always has a goroutine that will clean its entry up. */
  lemma BusyHasOwner(ws: seq<World>, es: seq<Event>, i: nat, s: string)
    requires IsRun(ws, es) && i < |ws| && s in ws[i].agent.active
    ensures var w := ws[i]; exists c :: c in w.chains && w.chains[c].session == s && !w.chains[c].phase.Gone?
                                     && w.agent.active[s] in w.chains[c].cleanups
  {
    RunKeeps(ws, es, i);
    assert HasCleaner(ws[i], s);
    var c := ws[i].runOwner[ws[i].agent.active[s]];
    assert OwnsRuns(ws[i], c);
  }

  /** Untracked prompts do not escape a mark: at a drain, a queued prompt with a RunID ends
      exactly if it came without a reservation and its session has a mark, even one that a
      Cancel set before the prompt was submitted. A tracked one always stays queued. */
  lemma DrainEndsUntrackedUnderMark(ws: seq<World>, es: seq<Event>, i: nat, c: nat, call: Call)
    requires IsRun(ws, es) && i < |es| && es[i] == DrainStep(c) && c in ws[i].chains
    requires call in QueueOf(ws[i].agent, ws[i].chains[c].session) && call.runID != ""
    ensures call.prompt in ws[i + 1].places
    ensures ws[i + 1].places[call.prompt]
         == if call.acceptSeq == 0 && MarkOf(ws[i].agent, ws[i].chains[c].session) > 0
            then Finished(Published) else Waiting
  {
    hide Step, Inv;
    RunKeeps(ws, es, i);
    DrainFate(ws[i], c, call);
  }

  lemma DrainFate(w: World, c: nat, call: Call)
    requires Enabled(w, DrainStep(c)) && Inv(w)
    requires call in QueueOf(w.agent, w.chains[c].session) && call.runID != ""
    ensures var w' := Step(w, DrainStep(c)); var m := MarkOf(w.agent, w.chains[c].session);
      call.prompt in w'.places
      && w'.places[call.prompt] == if call.acceptSeq == 0 && m > 0 then Finished(Published) else Waiting
  {
    hide Inv, QueuesInv, Step;
    var s := w.chains[c].session;
    var q, m := QueueOf(w.agent, s), MarkOf(w.agent, s);
    QueuesInvOf(w);
    AgentInvOf(w);
    IsQueued(w, s, call);
    OnlyThisCall(w, s, call);
    DrainSettles(w, c, call.prompt);
    assert CoveredBy(m, call.acceptSeq) <==> call.acceptSeq == 0 && m > 0;
    assert call.prompt in Prompts(Select(q, m, true, Announce)) <==> call in Select(q, m, true, Announce);
  }

  lemma IsQueued(w: World, s: string, call: Call)
    requires QueuesInv(w) && AgentInv(w.agent) && call in QueueOf(w.agent, s)
    ensures call.prompt in w.places && w.places[call.prompt] == Waiting
    ensures call.acceptSeq == 0 || MarkOf(w.agent, s) < call.acceptSeq
  {
  }

  lemma DrainSettles(w: World, c: nat, p: nat)
    requires Enabled(w, DrainStep(c)) && QueuesInv(w) && p in w.places
    ensures var w' := Step(w, DrainStep(c)); var s := w.chains[c].session;
      var q, m := QueueOf(w.agent, s), MarkOf(w.agent, s);
      p in w.chains && p in w'.places
      && Settled(w, w', s, Select(q, m, true, Keep), Select(q, m, true, Announce),
                 Select(q, m, true, Discard) + Select(q, m, true, Fold), p)
  {
  }

  lemma OnlyThisCall(w: World, s: string, call: Call)
    requires QueuesInv(w) && call in QueueOf(w.agent, s)
    ensures forall other | other in QueueOf(w.agent, s) && other.prompt == call.prompt :: other == call
  {
  }
}
