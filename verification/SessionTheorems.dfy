/** What sessions owe each other and themselves over every run of the dispatch protocol: an
    idle session starts its prompt, Cancel of one session stops no other, sessions do not
    interfere, and queued prompts keep their order. */
module SessionTheorems {
  import opened Common
  import opened AgentState
  import opened AgentInvariants
  import opened DispatchProtocol
  import opened DispatchInvariants
  import opened DispatchMoves
  import opened DispatchTheorems

  // ------------------------------------------------------------------ a session that is idle

  /** The session's mark covers the reservation that the call came with. */
  ghost predicate CanceledBefore(w: World, call: Call) {
    && call.accepted.Some? && call.session in w.agent.mark
    && call.accepted.value <= w.agent.mark[call.session]
  }

  lemma IsEntry(w: World, c: nat, persistFails: bool)
    requires Enabled(w, Enter(c, persistFails))
    ensures Step(w, Enter(c, persistFails)) == StepEnter(w, c, persistFails)
  {
  }

  lemma PendingCall(w: World, c: nat)
    requires Inv(w) && c in w.chains && BeforeEntry(w.chains[c].phase)
    ensures var call := w.chains[c].phase.call;
      && call.session == w.chains[c].session && call.prompt in w.places
      && (call.accepted.Some? ==> 0 < call.accepted.value)
      && (call.accepted.Some? && CoveredBy(MarkOf(w.agent, call.session), call.accepted.value)
          <==> CanceledBefore(w, call))
  {
    assert OwnsHandle(w, c) && CarriesCall(w, c) && Places(w, c);
  }

  lemma EntryPlaces(w: World, c: nat, persistFails: bool)
    requires c in w.chains && BeforeEntry(w.chains[c].phase)
    ensures var w', call := StepEnter(w, c, persistFails), w.chains[c].phase.call; var p := call.prompt;
      && p in w'.places
      && (w'.places[p].Finished? <==> Decide(w.agent, call) == CancelOnEntry)
      && (w'.places[p] == Waiting <==> Decide(w.agent, call) == JoinQueue)
      && (w'.places[p] == Running(c) <==> Decide(w.agent, call) == BecomeActive)
      && (w'.places[p] == Running(c) ==> c in w'.chains && w'.chains[c].phase == Starting(call, |w.runOwner|))
      && w'.agent == EnterRun(w.agent, call, |w.runOwner|)
  {
    hide EnterRun, Decide;
  }

  lemma EntryAgent(a: Agent, call: Call, run: nat)
    ensures var b := EnterRun(a, call, run); var d := Decide(a, call);
      && QueueOf(b, call.session) == QueueOf(a, call.session) + (if d == JoinQueue then [QueuedForm(call)] else [])
      && b.active == if d == BecomeActive then a.active[call.session := run] else a.active
  {
    hide CoveredBy;
  }

  /** Run's dispatch section decides by the prompt's own session alone: cancelled before, it
      ends; else it waits exactly if a run of that session is registered, at the end of the
      queue, and otherwise becomes that session's registered run. */
  lemma OwnSessionDecides(ws: seq<World>, es: seq<Event>, i: nat, c: nat, persistFails: bool)
    requires IsRun(ws, es) && i < |es| && es[i] == Enter(c, persistFails)
    ensures c in ws[i].chains && HasCall(ws[i].chains[c].phase)
    ensures var w, w', call := ws[i], ws[i + 1], ws[i].chains[c].phase.call; var s, p := call.session, call.prompt;
      && p in w'.places
      && (w'.places[p].Finished? <==> CanceledBefore(w, call))
      && (w'.places[p] == Waiting <==> !CanceledBefore(w, call) && s in w.agent.active)
      && (w'.places[p] == Running(c) <==> !CanceledBefore(w, call) && s !in w.agent.active)
      && (w'.places[p] == Waiting ==>
            && QueueOf(w'.agent, s) == QueueOf(w.agent, s) + [QueuedForm(call)] && w'.agent.active == w.agent.active)
      && (w'.places[p] != Waiting ==> QueueOf(w'.agent, s) == QueueOf(w.agent, s))
      && (w'.places[p] == Running(c) ==> w'.agent.active == w.agent.active[s := w'.chains[c].phase.run])
  {
    hide Inv, Step, StepEnter, EnterRun;
    RunKeeps(ws, es, i);
    IsEntry(ws[i], c, persistFails);
    PendingCall(ws[i], c);
    EntryPlaces(ws[i], c, persistFails);
    EntryAgent(ws[i].agent, ws[i].chains[c].phase.call, |ws[i].runOwner|);
  }

  // ----------------------------------------------------------------- whose runs Cancel stops

  /** In this state a Cancel starts for the session of this run, and the run is registered. */
  ghost predicate CancelsRun(w: World, e: Event, r: nat) {
    && e.CancelStart? && e.session in w.agent.active && w.agent.active[e.session] == r
    && r < |w.runOwner| && w.runOwner[r] in w.chains && w.chains[w.runOwner[r]].session == e.session
  }

  lemma StoppedAfter(w: World, e: Event)
    requires Enabled(w, e)
    ensures AgentAfter(w, e).stopped
         == w.agent.stopped + if e.CancelStart? && e.session in w.agent.active then {w.agent.active[e.session]} else {}
  {
    hide Drain, Survivors, EnterRun, HandoffIdle, HandoffNext, RaiseAndClear;
    match e
    case DrainStep(c) => QueueStops(w.agent, w.chains[c].session, CancelRead(false, 0));
    case HandOff(c) => QueueStops(w.agent, w.chains[c].session, CancelRead(false, 0));
    case CancelFinish(s) => QueueStops(w.agent, s, w.cancels[s]);
    case Enter(c, _) => EntryStops(w.agent, w.chains[c].phase.call, |w.runOwner|);
    case _ =>
  }

  lemma QueueStops(a: Agent, s: string, read: CancelRead)
    ensures a.stopped == Drain(a, s).stopped == HandoffIdle(a, s).stopped == RaiseAndClear(a, s, read).stopped
    ensures Survivors(a, s) != [] ==> HandoffNext(a, s).stopped == a.stopped
  {
  }

  lemma EntryStops(a: Agent, call: Call, run: nat)
    ensures EnterRun(a, call, run).stopped == a.stopped
  {
  }

  lemma ActiveIsOwn(w: World, s: string)
    requires Inv(w) && s in w.agent.active
    ensures CancelsRun(w, CancelStart(s), w.agent.active[s])
  {
    assert HasCleaner(w, s);
  }

  /** The context of a run is cancelled if and only if a Cancel of the run's own session
      started while the run was registered: no Cancel stops a run of another session. */
  lemma {:induction false} StoppedByOwnCancel(ws: seq<World>, es: seq<Event>, k: nat, r: nat)
    requires IsRun(ws, es) && k < |ws|
    ensures r in ws[k].agent.stopped <==> exists i: nat :: i < k && CancelsRun(ws[i], es[i], r)
  {
    hide Inv, Step, Enabled, AgentAfter, CancelsRun;
    if k == 0 {
    } else {
      var w, e := ws[k - 1], es[k - 1];
      StoppedByOwnCancel(ws, es, k - 1, r);
      RunKeeps(ws, es, k - 1);
      AgentStep(w, e);
      StoppedAfter(w, e);
      StopsExactly(w, e, r);
    }
  }

  lemma StopsExactly(w: World, e: Event, r: nat)
    requires Inv(w)
    ensures CancelsRun(w, e, r) <==> e.CancelStart? && e.session in w.agent.active && w.agent.active[e.session] == r
  {
    hide Inv;
    if e.CancelStart? && e.session in w.agent.active { ActiveIsOwn(w, e.session); }
  }

  // ------------------------------------------------------------- sessions do not interfere

  /** Every open handle is of the session of the goroutine that holds it. */
  ghost predicate HandlesOwned(w: World) {
    forall h | h in w.agent.open ::
      h in w.holder && w.holder[h] in w.chains && w.chains[w.holder[h]].session == w.agent.open[h]
  }

  /** The session that a step is about. */
  ghost function SessionOf(w: World, e: Event): string
    requires Enabled(w, e)
  {
    match e
    case Accept(_, s, _) => s
    case SubmitLocal(_, s, _) => s
    case CancelStart(s) => s
    case CancelFinish(s) => s
    case ClearQueued(s) => s
    case _ => w.chains[e.chain].session
  }

  /** The agent's books on session `t`. */
  ghost predicate SameBooks(a: Agent, b: Agent, t: string) {
    && QueueOf(a, t) == QueueOf(b, t) && MarkOf(a, t) == MarkOf(b, t)
    && (t in a.active <==> t in b.active) && (t in a.active ==> a.active[t] == b.active[t])
    && Lookup(a.accepted, t, 0) == Lookup(b.accepted, t, 0)
    && OpenHandles(a.open, t) == OpenHandles(b.open, t)
  }

  lemma BeginElsewhere(a: Agent, s: string, t: string)
    requires t != s && a.gen + 1 !in a.open
    ensures SameBooks(a, BeginAccepted(a, s), t)
  {
  }

  lemma CloseElsewhere(a: Agent, h: Option<nat>, s: string, t: string)
    requires t != s && (h.Some? && h.value in a.open ==> a.open[h.value] == s)
    ensures SameBooks(a, CloseOf(a, h), t)
  {
  }

  lemma EnterElsewhere(a: Agent, call: Call, run: nat, t: string)
    requires t != call.session
    requires call.accepted.Some? && call.accepted.value in a.open ==> a.open[call.accepted.value] == call.session
    ensures SameBooks(a, EnterRun(a, call, run), t)
  {
    hide CloseOf, SameBooks;
    var s := call.session;
    match Decide(a, call)
    case CancelOnEntry => CloseElsewhere(a, call.accepted, s, t);
    case JoinQueue =>
      CloseElsewhere(Enqueue(a, call), call.accepted, s, t);
      BooksTwice(a, Enqueue(a, call), CloseOf(Enqueue(a, call), call.accepted), t);
    case BecomeActive =>
      var b := a.(active := a.active[s := run]);
      CloseElsewhere(b, call.accepted, s, t);
      BooksTwice(a, b, CloseOf(b, call.accepted), t);
  }

  lemma BooksTwice(a: Agent, b: Agent, c: Agent, t: string)
    requires SameBooks(b, c, t)
    requires QueueOf(a, t) == QueueOf(b, t) && b.mark == a.mark && b.accepted == a.accepted && b.open == a.open
    requires (t in a.active <==> t in b.active) && (t in a.active ==> a.active[t] == b.active[t])
    ensures SameBooks(a, c, t)
  {
  }

  lemma QueueElsewhere(a: Agent, s: string, t: string)
    requires t != s
    ensures SameBooks(a, Drain(a, s), t) && SameBooks(a, HandoffIdle(a, s), t) && SameBooks(a, ClearQueue(a, s), t)
  {
    hide Select;
  }

  lemma NextElsewhere(a: Agent, s: string, t: string)
    requires t != s && a.gen + 1 !in a.open && Survivors(a, s) != []
    ensures SameBooks(a, HandoffNext(a, s), t)
  {
    hide Survivors;
  }

  lemma CancelElsewhere(a: Agent, s: string, t: string, read: CancelRead)
    requires t != s
    ensures SameBooks(a, StopActive(a, s), t) && SameBooks(a, RaiseAndClear(a, s, read), t)
  {
  }

  lemma ActiveElsewhere(a: Agent, s: string, t: string, run: nat)
    requires t != s
    ensures SameBooks(a, DeleteActive(a, s), t) && SameBooks(a, CompareAndDelete(a, s, run), t)
  {
  }

  lemma BooksItself(a: Agent, t: string)
    ensures SameBooks(a, a, t)
  {
  }

  lemma AgentElsewhere(w: World, e: Event, t: string)
    requires Enabled(w, e) && Inv(w) && HandlesOwned(w) && t != SessionOf(w, e)
    ensures SameBooks(w.agent, AgentAfter(w, e), t)
  {
    hide Inv, SameBooks, EnterRun, CloseOf, Drain, HandoffIdle, HandoffNext, Survivors, RaiseAndClear, ClearQueue,
      BeginAccepted, DeleteActive, CompareAndDelete, StopActive;
    HandlesOf(w, e);
    match e
    case Accept(_, s, _) => BeginElsewhere(w.agent, s, t);
    case Enter(c, _) => EnterElsewhere(w.agent, w.chains[c].phase.call, |w.runOwner|, t);
    case ReleaseHandle(c) => CloseElsewhere(w.agent, w.chains[c].handle, w.chains[c].session, t);
    case DrainStep(c) => QueueElsewhere(w.agent, w.chains[c].session, t);
    case HandOff(c) =>
      QueueElsewhere(w.agent, w.chains[c].session, t);
      if Survivors(w.agent, w.chains[c].session) != [] { NextElsewhere(w.agent, w.chains[c].session, t); }
    case CompletionDel(c) => ActiveElsewhere(w.agent, w.chains[c].session, t, 0);
    case Cleanup(c) =>
      ActiveElsewhere(w.agent, w.chains[c].session, t, w.chains[c].cleanups[|w.chains[c].cleanups| - 1]);
    case CancelStart(s) => CancelElsewhere(w.agent, s, t, CancelRead(false, 0));
    case CancelFinish(s) => CancelElsewhere(w.agent, s, t, w.cancels[s]);
    case ClearQueued(s) => QueueElsewhere(w.agent, s, t);
    case _ => BooksItself(w.agent, t);
  }

  /** What the closing sections need to know about handles. */
  lemma HandlesOf(w: World, e: Event)
    requires Enabled(w, e) && Inv(w) && HandlesOwned(w)
    ensures w.agent.gen + 1 !in w.agent.open
    ensures e.Enter? ==> var call := w.chains[e.chain].phase.call;
      && call.session == w.chains[e.chain].session
      && (call.accepted.Some? && call.accepted.value in w.agent.open ==>
            w.agent.open[call.accepted.value] == call.session)
    ensures e.ReleaseHandle? ==> var h := w.chains[e.chain].handle;
      h.Some? && h.value in w.agent.open ==> w.agent.open[h.value] == w.chains[e.chain].session
  {
    hide CancelsInv, RunsInv, PlacesInv, QueuesInv, TerminalInv;
    if e.Enter? || e.ReleaseHandle? { assert OwnsHandle(w, e.chain) && CarriesCall(w, e.chain); }
  }

  lemma OpenAfter(w: World, e: Event, h: nat)
    requires Enabled(w, e) && h in AgentAfter(w, e).open
    ensures (h in w.agent.open && AgentAfter(w, e).open[h] == w.agent.open[h])
         || ((e.Accept? || e.HandOff?) && h == w.agent.gen + 1 && AgentAfter(w, e).open[h] == SessionOf(w, e)
             && (e.HandOff? ==> Survivors(w.agent, w.chains[e.chain].session) != []))
  {
    hide Survivors, Drain, EnterRun;
    match e
    case DrainStep(c) => DrainOpen(w.agent, w.chains[c].session);
    case Enter(c, _) => EntryOpen(w.agent, w.chains[c].phase.call, |w.runOwner|);
    case _ =>
  }

  lemma DrainOpen(a: Agent, s: string)
    ensures Drain(a, s).open == a.open
  {
  }

  lemma EntryOpen(a: Agent, call: Call, run: nat)
    ensures forall h | h in EnterRun(a, call, run).open :: h in a.open && EnterRun(a, call, run).open[h] == a.open[h]
  {
  }

  /** Who holds the handles after a step. */
  lemma HolderStep(w: World, e: Event)
    requires Enabled(w, e)
    ensures Step(w, e).holder == match e {
        case Accept(p, _, _) => w.holder[w.agent.gen + 1 := p]
        case HandOff(c) =>
          if Survivors(w.agent, w.chains[c].session) == [] then w.holder else w.holder[w.agent.gen + 1 := c]
        case _ => w.holder
      }
  {
    if e.Enter? || e.HandOff? || e.DrainStep? || e.StreamFails? || e.CancelFinish? || e.ClearQueued? {
      hide StepEnter, StepHandOff, StepDrain, StepStreamFails, Prompts, Select, WithRunID, RaiseAndClear, ClearQueue,
        StepAccept, StepSubmitLocal, StepRefuse, StepFailBeforeRun, StepCompletionDel, StepCleanup,
        StepCoordinatorReturns, StepBackendReturns, StepReleaseHandle;
      match e
      case Enter(c, persistFails) => EntryHolder(w, c, persistFails);
      case HandOff(c) => HandOffHolder(w, c);
      case DrainStep(c) => DrainHolder(w, w.chains[c].session);
      case StreamFails(c, stopped) => FailureHolder(w, c, stopped);
      case _ =>
    } else {
      hide Step, Enabled;
      OtherHolder(w, e);
    }
  }

  lemma OtherHolder(w: World, e: Event)
    requires Enabled(w, e)
    requires !e.Enter? && !e.HandOff? && !e.DrainStep? && !e.StreamFails? && !e.CancelFinish? && !e.ClearQueued?
    ensures Step(w, e).holder == if e.Accept? then w.holder[w.agent.gen + 1 := e.prompt] else w.holder
  {
    hide StepEnter, StepHandOff, StepDrain, StepStreamFails, StepCancelFinish, StepClearQueued, CloseOf,
      UnreportedPlace, BeginAccepted, CompareAndDelete, DeleteActive;
  }

  lemma EntryHolder(w: World, c: nat, persistFails: bool)
    requires c in w.chains && BeforeEntry(w.chains[c].phase)
    ensures StepEnter(w, c, persistFails).holder == w.holder
  {
    hide EnterRun, Decide;
  }

  lemma HandOffHolder(w: World, c: nat)
    requires c in w.chains && w.chains[c].phase.Completing?
    ensures StepHandOff(w, c).holder
         == if Survivors(w.agent, w.chains[c].session) == [] then w.holder else w.holder[w.agent.gen + 1 := c]
  {
    hide EventsFor, Prompts, Owes, Survivors, HandoffIdle, HandoffNext, Select;
  }

  lemma DrainHolder(w: World, s: string)
    ensures StepDrain(w, s).holder == w.holder
  {
    hide Drain, EventsFor, Prompts, Select;
  }

  lemma FailureHolder(w: World, c: nat, stopped: bool)
    requires c in w.chains && w.chains[c].phase.Streaming?
    ensures StepStreamFails(w, c, stopped).holder == w.holder
  {
  }

  lemma NewChain(w: World, e: Event)
    requires (e.Accept? || e.SubmitLocal?) && Enabled(w, e)
    ensures var w' := Step(w, e);
      && e.prompt in w'.chains && w'.chains[e.prompt].session == e.session
      && w'.chains == w.chains[e.prompt := w'.chains[e.prompt]] && w'.places == w.places[e.prompt := Pending(e.prompt)]
  {
    hide BeginAccepted;
  }

  lemma OwnedStep(w: World, e: Event)
    requires Enabled(w, e) && Inv(w) && HandlesOwned(w)
    ensures HandlesOwned(Step(w, e))
  {
    hide Inv, Step, AgentAfter;
    var w' := Step(w, e);
    AgentStep(w, e);
    HolderStep(w, e);
    HandlesOf(w, e);
    AgentInvOf(w);
    forall h | h in w'.agent.open
      ensures h in w'.holder && w'.holder[h] in w'.chains && w'.chains[w'.holder[h]].session == w'.agent.open[h] {
      OpenAfter(w, e, h);
      if h in w.agent.open {
        SessionStays(w, e, w.holder[h]);
      } else if e.Accept? {
        NewChain(w, e);
      } else {
        SessionStays(w, e, e.chain);
      }
    }
  }

  lemma {:induction false} HandlesAreOwned(ws: seq<World>, es: seq<Event>, k: nat)
    requires IsRun(ws, es) && k < |ws|
    ensures HandlesOwned(ws[k])
  {
    hide Inv, Step, Enabled;
    if k == 0 {
    } else {
      HandlesAreOwned(ws, es, k - 1);
      RunKeeps(ws, es, k - 1);
      OwnedStep(ws[k - 1], es[k - 1]);
    }
  }

  /** The prompt and its goroutine are where they were. */
  ghost predicate Unmoved(w: World, w': World, p: nat) {
    && p in w.places && p in w.chains && p in w'.places && p in w'.chains
    && w'.places[p] == w.places[p] && w'.chains[p] == w.chains[p]
  }

  /** The prompts that a goroutine's own steps can move are of its session. */
  lemma OwnPrompts(w: World, c: nat, p: nat)
    requires At(w, c) && p in w.chains && w.chains[p].session != w.chains[c].session
    ensures p != c
    ensures HasCall(w.chains[c].phase) ==> w.chains[c].phase.call.prompt != p
    ensures w.chains[c].latest != Some(p)
  {
    assert CarriesCall(w, c) && Bookkeeping(w, c);
  }

  lemma PhaseUnmoved(w: World, e: Event, p: nat)
    requires e.Refuse? || e.FailBeforeRun? || e.LookupFails? || e.LookupsDone? || e.StreamFails? || e.CompletionDel?
    requires Enabled(w, e) && At(w, e.chain) && Here(w, p) && w.chains[p].session != w.chains[e.chain].session
    ensures Unmoved(w, Step(w, e), p)
  {
    OwnPrompts(w, e.chain, p);
    hide At, UnreportedPlace, DeleteActive;
  }

  lemma EndUnmoved(w: World, e: Event, p: nat)
    requires e.Cleanup? || e.CoordinatorReturns? || e.BackendReturns? || e.ReleaseHandle?
    requires Enabled(w, e) && At(w, e.chain) && Here(w, p) && w.chains[p].session != w.chains[e.chain].session
    ensures Unmoved(w, Step(w, e), p)
  {
    OwnPrompts(w, e.chain, p);
    hide At, CompareAndDelete, CloseOf;
  }

  lemma QueueUnmoved(w: World, e: Event, p: nat)
    requires e.DrainStep? || e.CancelFinish? || e.ClearQueued? || e.CancelStart?
    requires Enabled(w, e) && QueuesInv(w) && Here(w, p) && w.chains[p].session != SessionOf(w, e)
    ensures Unmoved(w, Step(w, e), p)
  {
    hide QueuesInv, Splits, EventsFor;
    var s := SessionOf(w, e);
    var q := QueueOf(w.agent, s);
    if e.DrainStep? {
      DrainSettles(w, e.chain, p);
    } else if !e.CancelStart? {
      ClearSplits(w, s);
      SettleOne(w, s, [], WithRunID(q), Filter(q, (c: Call) => c.runID == ""), p);
    }
  }

  lemma MidUnmoved(w: World, c: nat, p: nat)
    requires QueuesInv(w) && c in w.chains && Here(w, p) && w.chains[p].session != w.chains[c].session
    ensures Unmoved(w, MidHandOff(w, c), p)
  {
    hide QueuesInv, Splits, EventsFor;
    var s := w.chains[c].session;
    var q, m := QueueOf(w.agent, s), MarkOf(w.agent, s);
    HandOffSplits(w, s, MidHandOff(w, c).agent);
    SettleOne(w, s, Survivors(w.agent, s), Select(q, m, false, Announce), Select(q, m, false, Discard), p);
  }

  lemma IdleUnmoved(w: World, c: nat, p: nat)
    requires At(w, c) && w.chains[c].phase.Completing? && Here(w, p) && w.chains[p].session != w.chains[c].session
    ensures Unmoved(w, HandIdle(w, c), p)
  {
    OwnPrompts(w, c, p);
    hide At, HandoffIdle;
  }

  lemma NextUnmoved(w: World, c: nat, p: nat)
    requires At(w, c) && w.chains[c].phase.Completing? && Here(w, p) && w.chains[p].session != w.chains[c].session
    requires QueueOf(w.agent, w.chains[c].session) != [] && NextFacts(w, c)
    ensures Unmoved(w, HandNext(w, c), p)
  {
    OwnPrompts(w, c, p);
    hide At, Owes, BeginAccepted, SetQueue;
  }

  lemma HandOffUnmoved(w: World, c: nat, p: nat)
    requires c in w.chains && p in w.chains && w.chains[p].session != w.chains[c].session
    requires w.chains[c].phase.Completing? && Inv(w) && Here(w, p)
    ensures Unmoved(w, StepHandOff(w, c), p)
  {
    hide Inv, MidHandOff, StepHandOff, HandIdle, HandNext, Survivors, NextFacts, At, Here;
    var mid := MidHandOff(w, c);
    QueuesInvOf(w);
    MidKeeps(w, c);
    MidUnmoved(w, c, p);
    if Survivors(w.agent, w.chains[c].session) == [] {
      HandOffIsIdle(w, c);
      LocalizeBoth(mid, c, p);
      IdleUnmoved(mid, c, p);
    } else {
      HandOffIsNext(w, c);
      LocalizeBoth(mid, c, p);
      KnowNextOf(mid, c);
      NextUnmoved(mid, c, p);
    }
  }

  lemma EnterUnmoved(w: World, c: nat, persistFails: bool, p: nat)
    requires At(w, c) && BeforeEntry(w.chains[c].phase) && Here(w, p) && w.chains[p].session != w.chains[c].session
    ensures Unmoved(w, StepEnter(w, c, persistFails), p)
  {
    OwnPrompts(w, c, p);
    EnterEffect(w, c, persistFails);
    hide At, StepEnter, EnterRun;
  }

  lemma StepUnmoved(w: World, e: Event, p: nat)
    requires Enabled(w, e) && Inv(w) && p in w.chains && w.chains[p].session != SessionOf(w, e)
    ensures Unmoved(w, Step(w, e), p)
  {
    hide Inv, At, Here, Unmoved, StepEnter, StepHandOff;
    QueuesInvOf(w);
    if e.Accept? || e.SubmitLocal? {
      NewUnmoved(w, e, p);
    } else if e.DrainStep? || e.CancelFinish? || e.ClearQueued? || e.CancelStart? {
      IsHere(w, p);
      hide Step;
      QueueUnmoved(w, e, p);
    } else {
      LocalizeBoth(w, e.chain, p);
      if e.Enter? { EnterUnmoved(w, e.chain, e.persistFails, p); }
      else if e.HandOff? { HandOffUnmoved(w, e.chain, p); }
      else { ChainUnmoved(w, e, p); }
    }
  }

  lemma ChainUnmoved(w: World, e: Event, p: nat)
    requires Enabled(w, e) && !e.Accept? && !e.SubmitLocal? && !e.DrainStep? && !e.Enter? && !e.HandOff?
    requires !e.CancelStart? && !e.CancelFinish? && !e.ClearQueued?
    requires At(w, e.chain) && Here(w, p) && w.chains[p].session != w.chains[e.chain].session
    ensures Unmoved(w, Step(w, e), p)
  {
    hide Step, At, Here, Unmoved;
    if e.Cleanup? || e.CoordinatorReturns? || e.BackendReturns? || e.ReleaseHandle? {
      EndUnmoved(w, e, p);
    } else {
      PhaseUnmoved(w, e, p);
    }
  }

  lemma IsHere(w: World, p: nat)
    requires Inv(w) && p in w.chains
    ensures Here(w, p)
  {
  }

  lemma NewUnmoved(w: World, e: Event, p: nat)
    requires (e.Accept? || e.SubmitLocal?) && Enabled(w, e) && p in w.chains && p in w.places
    ensures Unmoved(w, Step(w, e), p)
  {
    NewChain(w, e);
  }

  /** Sessions do not interfere: a step about one session leaves the queue, the registered run,
      the mark and the reservations of every other session as they are, and moves none of its
      prompts and goroutines. */
  lemma SessionsDoNotInterfere(ws: seq<World>, es: seq<Event>, i: nat, t: string, p: nat)
    requires IsRun(ws, es) && i < |es|
    ensures Enabled(ws[i], es[i])
    ensures t != SessionOf(ws[i], es[i]) ==> SameBooks(ws[i].agent, ws[i + 1].agent, t)
    ensures p in ws[i].chains && ws[i].chains[p].session != SessionOf(ws[i], es[i]) ==> Unmoved(ws[i], ws[i + 1], p)
  {
    hide Inv, Step, AgentAfter, SameBooks, Unmoved;
    RunKeeps(ws, es, i);
    HandlesAreOwned(ws, es, i);
    AgentStep(ws[i], es[i]);
    if t != SessionOf(ws[i], es[i]) { AgentElsewhere(ws[i], es[i], t); }
    if p in ws[i].chains && ws[i].chains[p].session != SessionOf(ws[i], es[i]) { StepUnmoved(ws[i], es[i], p); }
  }
}
