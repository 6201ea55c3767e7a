/** The invariant of the dispatch protocol, in six parts. */
module DispatchInvariants {
  import opened Common
  import opened AgentState
  import opened AgentInvariants
  import opened DispatchProtocol

  ghost predicate CancelsInv(w: World) {
    forall s | s in w.cancels ::
      w.cancels[s].gen <= w.agent.gen && (w.cancels[s].inFlight ==> w.cancels[s].gen > 0)
  }

  /** The handle that a goroutine brings to Run is open, and is no other goroutine's. */
  ghost predicate OwnsHandle(w: World, c: nat)
    requires c in w.chains
  {
    var ch := w.chains[c];
    && (ch.backend <==> ch.handle.Some?)
    && (ch.handle.Some? ==> ch.handle.value in w.holder && w.holder[ch.handle.value] == c)
    && (ch.phase.Dispatched? ==> ch.phase.call.accepted == ch.handle)
    && (ch.phase.HandedOff? ==> ch.phase.call.accepted.Some?)
    && (BeforeEntry(ch.phase) && ch.phase.call.accepted.None? ==> ch.phase.call.acceptSeq == 0)
    && (BeforeEntry(ch.phase) && ch.phase.call.accepted.Some? ==>
          var h := ch.phase.call.accepted.value;
          && h in w.agent.open && w.agent.open[h] == ch.session
          && h in w.holder && w.holder[h] == c)
  }

  ghost predicate HandlesInv(w: World) {
    && (forall h | h in w.holder :: h <= w.agent.gen)
    && (forall c | c in w.chains :: OwnsHandle(w, c))
  }

  /** A streaming goroutine's entry is the registered one; every entry a goroutine still
      has to clean up is its own. */
  ghost predicate OwnsRuns(w: World, c: nat)
    requires c in w.chains
  {
    var ch := w.chains[c];
    && (forall r | r in ch.cleanups :: r < |w.runOwner| && w.runOwner[r] == c)
    && (Registered(ch.phase) ==>
          && ch.phase.run < |w.runOwner| && w.runOwner[ch.phase.run] == c
          && ch.session in w.agent.active && w.agent.active[ch.session] == ch.phase.run)
    && (ch.phase.Coordinated? || ch.phase.Closing? || ch.phase.Gone? || ch.phase.Dispatched? ==> ch.cleanups == [])
  }

  /** A registered entry belongs to a goroutine that has yet to clean it up. */
  ghost predicate HasCleaner(w: World, s: string)
    requires s in w.agent.active
  {
    var r := w.agent.active[s];
    && r < |w.runOwner| && w.runOwner[r] in w.chains
    && w.chains[w.runOwner[r]].session == s
    && r in w.chains[w.runOwner[r]].cleanups
  }

  ghost predicate RunsInv(w: World) {
    && (forall c | c in w.chains :: OwnsRuns(w, c))
    && (forall s | s in w.agent.active :: HasCleaner(w, s))
  }

  /** The call a goroutine carries is the prompt it was started for, hook included, or a
      later one from its session's queue, without the hook. */
  ghost predicate CarriesCall(w: World, c: nat)
    requires c in w.chains
  {
    var ch := w.chains[c];
    HasCall(ch.phase) ==>
      var call := ch.phase.call;
      && call.session == ch.session
      && (call.hooked <==> call.prompt == c)
      && call.prompt in w.chains
      && w.chains[call.prompt].session == ch.session
      && w.chains[call.prompt].runID == call.runID
      && (ch.phase.Dispatched? ==> call.prompt == c)
      && (ch.phase.HandedOff? ==> call.prompt != c)
      && (call.prompt != c ==>
            && c in w.places && w.places[c].Finished?
            && (ch.runID != "" ==> w.places[c] == Finished(Buffered(c))))
  }

  ghost predicate CallsInv(w: World) {
    && (forall c | c in w.chains :: CarriesCall(w, c))
    && (forall c, d | c in w.chains && d in w.chains && w.chains[c].runID == w.chains[d].runID ::
          c == d || w.chains[c].runID == "")
  }

  ghost predicate DistinctPrompts(q: seq<Call>) {
    forall i, j | 0 <= i < j < |q| :: q[i].prompt != q[j].prompt
  }

  /** Where the goroutine puts its current prompt. */
  ghost predicate Places(w: World, c: nat)
    requires c in w.chains
  {
    var ph := w.chains[c].phase;
    && (BeforeEntry(ph) ==> ph.call.prompt in w.places && w.places[ph.call.prompt] == Pending(c))
    && (Registered(ph) || ph.Completing? ==> ph.call.prompt in w.places && w.places[ph.call.prompt] == Running(c))
  }

  /** What a prompt's place says about goroutines and queues. */
  ghost predicate Placed(w: World, p: nat)
    requires p in w.places && p in w.chains
  {
    match w.places[p]
    case Pending(c) => c in w.chains && BeforeEntry(w.chains[c].phase) && w.chains[c].phase.call.prompt == p
    case Running(c) =>
      && c in w.chains && (Registered(w.chains[c].phase) || w.chains[c].phase.Completing?)
      && w.chains[c].phase.call.prompt == p
    case _ => true
  }

  ghost predicate QueuedHere(w: World, s: string, call: Call) {
    && call.prompt in w.chains && call.prompt in w.places && w.places[call.prompt] == Waiting
    && w.chains[call.prompt].session == s && w.chains[call.prompt].runID == call.runID
  }

  ghost predicate PlacesInv(w: World) {
    && w.places.Keys == w.chains.Keys
    && (forall c | c in w.chains :: Places(w, c))
    && (forall p | p in w.places && p in w.chains :: Placed(w, p))
  }

  ghost predicate QueuesInv(w: World) {
    && w.places.Keys == w.chains.Keys
    && (forall s, call | s in w.agent.queue && call in w.agent.queue[s] :: QueuedHere(w, s, call))
    && (forall s | s in w.agent.queue :: DistinctPrompts(w.agent.queue[s]))
    && (forall p | p in w.places && p in w.chains && w.places[p] == Waiting ::
          p in Prompts(QueueOf(w.agent, w.chains[p].session)))
  }

  ghost predicate Failing(ph: Phase) { ph == Unwinding(Failed) || ph == Coordinated(Failed) }

  /** What a prompt's fate says about the goroutine that was started for it. */
  ghost predicate FateKept(w: World, p: nat)
    requires p in w.places && p in w.chains
  {
    var ch := w.chains[p];
    match w.places[p]
    case Finished(Silent) => ch.runID == ""
    case Finished(Buffered(c)) =>
      c == p && ch.latest == Some(p) && (ch.phase.Unwinding? || (HasCall(ch.phase) && ch.phase.call.prompt != p))
    case Finished(Owed(c)) =>
      c == p && ch.backend && ch.runID != "" && !ch.marked && ch.latest.None? && Failing(ch.phase)
    case _ => true
  }

  /** What a goroutine's terminal bookkeeping says about its prompt. */
  ghost predicate Bookkeeping(w: World, c: nat)
    requires c in w.chains
  {
    var ch := w.chains[c];
    && (ch.latest.Some? ==> ch.latest == Some(c) && c in w.places && w.places[c] == Finished(Buffered(c)))
    && (ch.marked ==> ch.phase.Coordinated? || ch.phase.Closing? || ch.phase.Gone?)
    && (ch.backend && ch.runID != "" && Failing(ch.phase) && ch.latest.None? && !ch.marked ==>
          c in w.places && w.places[c] == Finished(Owed(c)))
  }

  ghost predicate TerminalInv(w: World) {
    && (forall p: nat :: w.published[p] == if p in w.places && w.places[p] == Finished(Published) then 1 else 0)
    && (forall p | p in w.places && p in w.chains :: FateKept(w, p))
    && (forall c | c in w.chains :: Bookkeeping(w, c))
  }

  ghost predicate Inv(w: World) {
    && AgentInv(w.agent) && CancelsInv(w) && HandlesInv(w) && RunsInv(w)
    && CallsInv(w) && PlacesInv(w) && QueuesInv(w) && TerminalInv(w)
  }

  lemma StartInv()
    ensures Inv(START)
  {
  }


  // -------------------------------------------------------------------- frames

  /** One goroutine `c` takes a step or is started; the others stay as they are. */
  ghost predicate ChainFrame(w: World, w': World, c: nat) {
    && c in w'.chains
    && w'.chains == w.chains[c := w'.chains[c]]
    && (c in w.chains ==>
          && w'.chains[c].session == w.chains[c].session && w'.chains[c].runID == w.chains[c].runID
          && w'.chains[c].backend == w.chains[c].backend && w'.chains[c].handle == w.chains[c].handle)
  }

  /** Only handles of `c` are closed, and only `c` takes new ones. */
  ghost predicate HandleFrame(w: World, w': World, c: nat) {
    && w.agent.gen <= w'.agent.gen
    && (forall h | h in w.holder :: h in w'.holder && w'.holder[h] == w.holder[h])
    && (forall h | h in w'.holder :: h <= w'.agent.gen)
    && (forall h | h in w.agent.open && h in w.holder && w.holder[h] != c ::
          h in w'.agent.open && w'.agent.open[h] == w.agent.open[h])
  }

  /** The active entry changes at most for the session of `c`, and only from an entry of `c`. */
  ghost predicate RunFrame(w: World, w': World, c: nat)
    requires c in w'.chains
  {
    var s := w'.chains[c].session;
    && w.runOwner <= w'.runOwner
    && (forall t | t != s :: t in w'.agent.active <==> t in w.agent.active)
    && (forall t | t != s && t in w.agent.active :: w'.agent.active[t] == w.agent.active[t])
    && (s in w.agent.active ==>
          || (s in w'.agent.active && w'.agent.active[s] == w.agent.active[s])
          || (w.agent.active[s] < |w.runOwner| && w.runOwner[w.agent.active[s]] == c))
    && (s in w'.agent.active ==> HasCleaner(w', s))
  }

  ghost predicate AtOther(pl: Place, c: nat) { (pl.Pending? || pl.Running?) && pl.at != c }

  /** Prompts carried by other goroutines keep their place, and finished ones stay as they
      are, except for the prompt `c` was started for. */
  ghost predicate PlaceFrame(w: World, w': World, c: nat) {
    && (forall p | p in w.places :: p in w'.places)
    && (forall p | p in w.places && AtOther(w.places[p], c) :: w'.places[p] == w.places[p])
    && (forall p | p in w'.places && AtOther(w'.places[p], c) :: p in w.places && w'.places[p] == w.places[p])
    && (forall p | p in w.places && p != c && w.places[p].Finished? :: w'.places[p] == w.places[p])
  }

  /** The number of events of every prompt grows exactly when it becomes Published. */
  ghost predicate PublishFrame(w: World, w': World) {
    && (forall p | p in w.places && w.places[p] == Finished(Published) ::
          p in w'.places && w'.places[p] == Finished(Published))
    && (forall p: nat :: w'.published[p] == w.published[p] +
          if (p in w'.places && w'.places[p] == Finished(Published))
             && !(p in w.places && w.places[p] == Finished(Published))
          then 1 else 0)
  }

  lemma HandlesLocal(w: World, w': World, c: nat)
    requires HandlesInv(w) && ChainFrame(w, w', c) && HandleFrame(w, w', c) && OwnsHandle(w', c)
    ensures HandlesInv(w')
  {
  }

  lemma RunsLocal(w: World, w': World, c: nat)
    requires RunsInv(w) && ChainFrame(w, w', c) && RunFrame(w, w', c) && OwnsRuns(w', c)
    ensures RunsInv(w')
  {
    forall d | d in w'.chains ensures OwnsRuns(w', d) {
      if d != c { assert OwnsRuns(w, d); }
    }
    forall s | s in w'.agent.active ensures HasCleaner(w', s) {
      if s != w'.chains[c].session {
        assert HasCleaner(w, s);
      }
    }
  }

  lemma CallsLocal(w: World, w': World, c: nat)
    requires CallsInv(w) && ChainFrame(w, w', c) && PlaceFrame(w, w', c) && CarriesCall(w', c)
    requires c !in w.chains ==> FreshRunID(w, w'.chains[c].runID)
    ensures CallsInv(w')
  {
  }

  lemma PlacesLocal(w: World, w': World, c: nat)
    requires PlacesInv(w) && ChainFrame(w, w', c) && PlaceFrame(w, w', c) && Places(w', c)
    requires w'.places.Keys == w'.chains.Keys
    requires forall p | p in w'.places && (w'.places[p] == Pending(c) || w'.places[p] == Running(c)) :: Placed(w', p)
    ensures PlacesInv(w')
  {
    forall d | d in w'.chains ensures Places(w', d) {
      if d != c { assert Places(w, d); }
    }
    forall p | p in w'.places && p in w'.chains ensures Placed(w', p) {
      if AtOther(w'.places[p], c) { assert Placed(w, p); }
    }
  }

  lemma TerminalLocal(w: World, w': World, c: nat)
    requires TerminalInv(w) && ChainFrame(w, w', c) && PlaceFrame(w, w', c) && PublishFrame(w, w')
    requires w.places.Keys == w.chains.Keys && w'.places.Keys == w'.chains.Keys
    requires Bookkeeping(w', c) && FateKept(w', c)
    requires forall p | p in w'.places && p != c && !(p in w.places && w'.places[p] == w.places[p]) :: FateKept(w', p)
    ensures TerminalInv(w')
  {
    forall p | p in w'.places && p in w'.chains ensures FateKept(w', p) {
      if p != c && p in w.places && w'.places[p] == w.places[p] { assert FateKept(w, p); }
    }
    forall d | d in w'.chains ensures Bookkeeping(w', d) {
      if d != c { assert Bookkeeping(w, d); }
    }
  }

  /** Nothing about queues changes. */
  ghost predicate CalmQueues(w: World, w': World) {
    && w'.agent.queue == w.agent.queue
    && (forall p | p in w.places && w.places[p] == Waiting :: p in w'.places && w'.places[p] == Waiting)
    && (forall p | p in w'.places && w'.places[p] == Waiting :: p in w.places && w.places[p] == Waiting)
  }

  /** The invariant seen from one goroutine. */
  ghost predicate At(w: World, c: nat) {
    && c in w.chains && c in w.places && w.places.Keys == w.chains.Keys
    && OwnsHandle(w, c) && OwnsRuns(w, c) && CarriesCall(w, c) && Places(w, c)
    && Bookkeeping(w, c) && FateKept(w, c)
    && w.published[c] <= 1 && (w.published[c] == 1 <==> w.places[c] == Finished(Published))
    && (forall p | p in w.places && (w.places[p] == Pending(c) || w.places[p] == Running(c)) ::
          HasCall(w.chains[c].phase) && w.chains[c].phase.call.prompt == p)
    && (w.chains[c].session in w.agent.active ==> HasCleaner(w, w.chains[c].session))
    && (forall h | h in w.holder :: h <= w.agent.gen)
    && (forall h | h in w.agent.open :: h <= w.agent.gen)
  }

  lemma Localize(w: World, c: nat)
    requires Inv(w) && c in w.chains
    ensures At(w, c)
  {
  }

  /** What a step of `c` has to establish at `c` itself: handles and runs ... */
  ghost predicate LocalShape(w: World, w': World, c: nat) {
    && ChainFrame(w, w', c) && HandleFrame(w, w', c) && RunFrame(w, w', c)
    && OwnsHandle(w', c) && OwnsRuns(w', c)
    && w'.cancels == w.cancels
    && (c !in w.chains ==> FreshRunID(w, w'.chains[c].runID))
  }

  /** ... and places and terminal events. */
  ghost predicate LocalTerms(w: World, w': World, c: nat) {
    && c in w'.chains && c in w'.places
    && PlaceFrame(w, w', c)
    && w'.places.Keys == w'.chains.Keys
    && CarriesCall(w', c) && Places(w', c) && Bookkeeping(w', c) && FateKept(w', c)
    && (forall p | p in w'.places && (w'.places[p] == Pending(c) || w'.places[p] == Running(c)) :: Placed(w', p))
    && (forall p | p in w'.places && p != c && !(p in w.places && w'.places[p] == w.places[p]) :: FateKept(w', p))
  }

  lemma QueuesLocal(w: World, w': World, c: nat)
    requires QueuesInv(w) && LocalShape(w, w', c) && LocalTerms(w, w', c) && CalmQueues(w, w')
    ensures QueuesInv(w')
  {
  }

  lemma LocalKeeps(w: World, w': World, c: nat)
    requires Inv(w) && LocalShape(w, w', c) && LocalTerms(w, w', c) && PublishFrame(w, w')
    requires AgentInv(w'.agent) && QueuesInv(w')
    ensures Inv(w')
  {
    HandlesLocal(w, w', c);
    RunsLocal(w, w', c);
    CallsLocal(w, w', c);
    PlacesLocal(w, w', c);
    TerminalLocal(w, w', c);
    assert CancelsInv(w') by { assert CancelsInv(w); }
  }

  lemma PublishesNothing(w: World, w': World)
    requires w'.published == w.published
    requires forall p | p in w.places && w.places[p] == Finished(Published) ::
               p in w'.places && w'.places[p] == Finished(Published)
    requires forall p | p in w'.places && w'.places[p] == Finished(Published) ::
               p in w.places && w.places[p] == Finished(Published)
    ensures PublishFrame(w, w')
  {
  }

  lemma PublishesOne(w: World, w': World, p: nat)
    requires w'.published == w.published + multiset{p}
    requires p in w.places && w.places[p] != Finished(Published)
    requires w'.places == w.places[p := Finished(Published)]
    ensures PublishFrame(w, w')
  {
  }

  // ------------------------------------------------- steps that leave the queue alone

  /** A step that changes only the phase and the terminal bookkeeping of `c`. */
  lemma PhaseShape(w: World, w': World, c: nat)
    requires At(w, c) && c in w'.chains
    requires w'.agent.open == w.agent.open && w'.agent.active == w.agent.active && w'.agent.gen == w.agent.gen
    requires w'.runOwner == w.runOwner && w'.holder == w.holder && w'.cancels == w.cancels
    requires var ph := w'.chains[c].phase;
      && w'.chains == w.chains[
           c := w.chains[c].(phase := ph, latest := w'.chains[c].latest, marked := w'.chains[c].marked)]
      && !BeforeEntry(ph)
      && (Registered(ph) ==> Registered(w.chains[c].phase) && ph.run == w.chains[c].phase.run)
      && (ph.Coordinated? || ph.Closing? || ph.Gone? ==> w.chains[c].cleanups == [])
    ensures LocalShape(w, w', c)
  {
  }

  lemma AcceptLocal(w: World, p: nat, s: string, runID: string)
    requires p !in w.chains && w.places.Keys == w.chains.Keys && FreshRunID(w, runID)
    requires forall h | h in w.holder :: h <= w.agent.gen
    requires s in w.agent.active ==> HasCleaner(w, s)
    ensures LocalShape(w, StepAccept(w, p, s, runID), p)
  {
  }

  lemma SubmitLocalLocal(w: World, p: nat, s: string, runID: string)
    requires p !in w.chains && w.places.Keys == w.chains.Keys && FreshRunID(w, runID)
    requires forall h | h in w.holder :: h <= w.agent.gen
    requires s in w.agent.active ==> HasCleaner(w, s)
    ensures LocalShape(w, StepSubmitLocal(w, p, s, runID), p)
  {
  }

  lemma AcceptTerms(w: World, p: nat, s: string, runID: string)
    requires p !in w.chains && w.places.Keys == w.chains.Keys
    requires forall q | q in w.places :: w.places[q] != Pending(p) && w.places[q] != Running(p)
    ensures LocalTerms(w, StepAccept(w, p, s, runID), p)
  {
    hide OwnsHandle, OwnsRuns, HasCleaner, BeginAccepted;
  }

  lemma SubmitTerms(w: World, p: nat, s: string, runID: string)
    requires p !in w.chains && w.places.Keys == w.chains.Keys
    requires forall q | q in w.places :: w.places[q] != Pending(p) && w.places[q] != Running(p)
    ensures LocalTerms(w, StepSubmitLocal(w, p, s, runID), p)
  {
    hide OwnsHandle, OwnsRuns, HasCleaner;
  }

  lemma RefuseTerms(w: World, c: nat)
    requires At(w, c) && w.chains[c].phase.Dispatched?
    ensures LocalTerms(w, StepRefuse(w, c), c)
  {
  }

  lemma FailBeforeRunTerms(w: World, c: nat, stopped: bool)
    requires At(w, c) && (w.chains[c].phase.Dispatched? || w.chains[c].phase.Starting?)
    ensures LocalTerms(w, StepFailBeforeRun(w, c, stopped), c)
  {
    hide OwnsHandle, OwnsRuns, HasCleaner;
  }

  lemma LookupsDoneTerms(w: World, c: nat)
    requires At(w, c) && w.chains[c].phase.Starting?
    ensures LocalTerms(w, StepLookupsDone(w, c), c)
  {
  }

  /** The turn that `c` carries ends with Run returning `o` and one publishRunComplete. */
  ghost predicate EndsTurn(w: World, w': World, c: nat, o: Outcome)
    requires c in w.chains && HasCall(w.chains[c].phase)
  {
    var ch := w.chains[c];
    var call := ch.phase.call;
    && w'.chains == w.chains[
         c := ch.(phase := Unwinding(o), latest := if call.hooked then Some(call.prompt) else ch.latest)]
    && w'.places == w.places[call.prompt := Finished(if call.hooked then Buffered(c) else Published)]
  }

  lemma EndFrames(w: World, w': World, c: nat, o: Outcome)
    requires At(w, c) && HasCall(w.chains[c].phase) && EndsTurn(w, w', c, o)
    ensures c in w'.chains && c in w'.places && w'.places.Keys == w'.chains.Keys
    ensures PlaceFrame(w, w', c) && Places(w', c)
    ensures forall p | p in w'.places && (w'.places[p] == Pending(c) || w'.places[p] == Running(c)) :: Placed(w', p)
  {
  }

  lemma EndFates(w: World, w': World, c: nat, o: Outcome)
    requires At(w, c) && HasCall(w.chains[c].phase) && EndsTurn(w, w', c, o)
    ensures c in w'.chains && c in w'.places
    ensures CarriesCall(w', c) && Bookkeeping(w', c) && FateKept(w', c)
    ensures forall p |
      p in w'.places && p in w'.chains && p != c && !(p in w.places && w'.places[p] == w.places[p]) :: FateKept(w', p)
  {
  }

  lemma EndTerms(w: World, w': World, c: nat, o: Outcome)
    requires c in w.chains && At(w, c) && HasCall(w.chains[c].phase) && EndsTurn(w, w', c, o)
    ensures LocalTerms(w, w', c)
  {
    hide At, EndsTurn, PlaceFrame, Places, CarriesCall, Bookkeeping, FateKept, Placed;
    EndFrames(w, w', c, o);
    EndFates(w, w', c, o);
  }

  lemma StreamFailsTerms(w: World, c: nat, stopped: bool)
    requires c in w.chains && At(w, c) && w.chains[c].phase.Streaming?
    ensures LocalTerms(w, StepStreamFails(w, c, stopped), c)
  {
    hide At, LocalTerms;
    EndTerms(w, StepStreamFails(w, c, stopped), c, FailOutcome(stopped));
  }

  lemma CompletionDelLocal(w: World, c: nat)
    requires At(w, c) && w.chains[c].phase.Streaming?
    ensures LocalShape(w, StepCompletionDel(w, c), c)
    ensures LocalTerms(w, StepCompletionDel(w, c), c)
  {
  }

  lemma CleanupLocal(w: World, c: nat)
    requires At(w, c) && w.chains[c].phase.Unwinding? && w.chains[c].cleanups != []
    ensures LocalShape(w, StepCleanup(w, c), c)
    ensures LocalTerms(w, StepCleanup(w, c), c)
  {
  }

  /** A goroutine without a call moves on; the only place that may change is its own. */
  lemma LastPhaseTerms(w: World, w': World, c: nat)
    requires At(w, c) && !HasCall(w.chains[c].phase)
    requires c in w'.chains && w'.chains == w.chains[c := w'.chains[c]] && !HasCall(w'.chains[c].phase)
    requires c in w'.places && w'.places == w.places[c := w'.places[c]]
    requires w'.places[c] == w.places[c] || (w.places[c].Finished? && w'.places[c] == Finished(Published))
    requires Bookkeeping(w', c) && FateKept(w', c)
    ensures LocalTerms(w, w', c)
  {
    hide OwnsHandle, OwnsRuns, HasCleaner, Bookkeeping, FateKept;
  }

  lemma CoordinatorReturnsTerms(w: World, c: nat)
    requires At(w, c) && w.chains[c].phase.Unwinding? && w.chains[c].cleanups == []
    ensures LocalTerms(w, StepCoordinatorReturns(w, c), c)
  {
    hide OwnsHandle, OwnsRuns, HasCleaner, LocalTerms, CarriesCall, Places;
    LastPhaseTerms(w, StepCoordinatorReturns(w, c), c);
  }

  lemma BackendReturnsTerms(w: World, c: nat)
    requires At(w, c) && w.chains[c].phase.Coordinated?
    ensures LocalTerms(w, StepBackendReturns(w, c), c)
  {
    hide OwnsHandle, OwnsRuns, HasCleaner, LocalTerms, CarriesCall, Places;
    LastPhaseTerms(w, StepBackendReturns(w, c), c);
  }

  lemma ReleaseHandleShape(w: World, c: nat)
    requires At(w, c) && w.chains[c].phase.Closing?
    ensures LocalShape(w, StepReleaseHandle(w, c), c)
  {
  }

  lemma ReleaseHandleTerms(w: World, c: nat)
    requires At(w, c) && w.chains[c].phase.Closing?
    ensures LocalTerms(w, StepReleaseHandle(w, c), c)
  {
  }

  // -------------------------------------------------------- and the invariant after them

  lemma FreshFacts(w: World, p: nat, s: string)
    requires Inv(w) && p !in w.chains
    ensures w.places.Keys == w.chains.Keys
    ensures forall h | h in w.holder :: h <= w.agent.gen
    ensures s in w.agent.active ==> HasCleaner(w, s)
    ensures forall q | q in w.places :: w.places[q] != Pending(p) && w.places[q] != Running(p)
  {
  }

  lemma AcceptKeeps(w: World, p: nat, s: string, runID: string)
    requires Enabled(w, Accept(p, s, runID)) && Inv(w)
    ensures Inv(Step(w, Accept(p, s, runID)))
  {
    hide AgentInv, CancelsInv, HandlesInv, RunsInv, CallsInv, PlacesInv, QueuesInv, TerminalInv, LocalShape,
      LocalTerms, PublishFrame, HasCleaner;
    var w' := StepAccept(w, p, s, runID);
    FreshFacts(w, p, s);
    BeginAcceptedKeeps(w.agent, s);
    AcceptLocal(w, p, s, runID);
    AcceptTerms(w, p, s, runID);
    PublishesNothing(w, w');
    QueuesLocal(w, w', p);
    LocalKeeps(w, w', p);
  }

  lemma SubmitLocalKeeps(w: World, p: nat, s: string, runID: string)
    requires Enabled(w, SubmitLocal(p, s, runID)) && Inv(w)
    ensures Inv(Step(w, SubmitLocal(p, s, runID)))
  {
    hide AgentInv, CancelsInv, HandlesInv, RunsInv, CallsInv, PlacesInv, QueuesInv, TerminalInv, LocalShape,
      LocalTerms, PublishFrame, HasCleaner;
    var w' := StepSubmitLocal(w, p, s, runID);
    FreshFacts(w, p, s);
    SubmitLocalLocal(w, p, s, runID);
    SubmitTerms(w, p, s, runID);
    PublishesNothing(w, w');
    QueuesLocal(w, w', p);
    LocalKeeps(w, w', p);
  }

  lemma RefuseEffects(w: World, c: nat)
    requires At(w, c) && w.chains[c].phase.Dispatched?
    ensures var w' := StepRefuse(w, c);
      LocalShape(w, w', c) && PublishFrame(w, w') && CalmQueues(w, w') && w'.agent == w.agent
  {
  }

  lemma RefuseKeeps(w: World, c: nat)
    requires Enabled(w, Refuse(c)) && Inv(w)
    ensures Inv(Step(w, Refuse(c)))
  {
    hide AgentInv, CancelsInv, HandlesInv, RunsInv, CallsInv, PlacesInv, QueuesInv, TerminalInv, LocalShape,
      LocalTerms, PublishFrame, CalmQueues, At;
    var w' := StepRefuse(w, c);
    Localize(w, c);
    RefuseEffects(w, c);
    RefuseTerms(w, c);
    QueuesLocal(w, w', c);
    LocalKeeps(w, w', c);
  }

  lemma FailBeforeRunEffects(w: World, c: nat, stopped: bool)
    requires At(w, c) && (w.chains[c].phase.Dispatched? || w.chains[c].phase.Starting?)
    ensures var w' := StepFailBeforeRun(w, c, stopped);
      LocalShape(w, w', c) && PublishFrame(w, w') && CalmQueues(w, w') && w'.agent == w.agent
  {
  }

  lemma FailBeforeRunKeeps(w: World, c: nat, stopped: bool, e: Event)
    requires e == FailBeforeRun(c, stopped) || e == LookupFails(c, stopped)
    requires Enabled(w, e) && Inv(w)
    ensures Inv(Step(w, e))
  {
    hide AgentInv, CancelsInv, HandlesInv, RunsInv, CallsInv, PlacesInv, QueuesInv, TerminalInv, LocalShape,
      LocalTerms, PublishFrame, CalmQueues, At;
    var w' := StepFailBeforeRun(w, c, stopped);
    Localize(w, c);
    FailBeforeRunEffects(w, c, stopped);
    FailBeforeRunTerms(w, c, stopped);
    QueuesLocal(w, w', c);
    LocalKeeps(w, w', c);
  }

  lemma LookupsDoneEffects(w: World, c: nat)
    requires At(w, c) && w.chains[c].phase.Starting?
    ensures var w' := StepLookupsDone(w, c);
      LocalShape(w, w', c) && PublishFrame(w, w') && CalmQueues(w, w') && w'.agent == w.agent
  {
  }

  lemma LookupsDoneKeeps(w: World, c: nat)
    requires Enabled(w, LookupsDone(c)) && Inv(w)
    ensures Inv(Step(w, LookupsDone(c)))
  {
    hide AgentInv, CancelsInv, HandlesInv, RunsInv, CallsInv, PlacesInv, QueuesInv, TerminalInv, LocalShape,
      LocalTerms, PublishFrame, CalmQueues, At;
    var w' := StepLookupsDone(w, c);
    Localize(w, c);
    LookupsDoneEffects(w, c);
    LookupsDoneTerms(w, c);
    QueuesLocal(w, w', c);
    LocalKeeps(w, w', c);
  }

  lemma EndPublishes(w: World, w': World, c: nat, o: Outcome)
    requires At(w, c) && HasCall(w.chains[c].phase) && EndsTurn(w, w', c, o)
    requires var call := w.chains[c].phase.call;
      w'.published == if call.hooked then w.published else w.published + multiset{call.prompt}
    requires w'.agent.queue == w.agent.queue
    ensures PublishFrame(w, w') && CalmQueues(w, w')
  {
  }

  lemma StreamFailsEffects(w: World, c: nat, stopped: bool)
    requires At(w, c) && w.chains[c].phase.Streaming?
    ensures var w' := StepStreamFails(w, c, stopped);
      LocalShape(w, w', c) && PublishFrame(w, w') && CalmQueues(w, w') && w'.agent == w.agent
  {
    hide LocalShape, PublishFrame, CalmQueues, Places, OwnsHandle, HasCleaner, FateKept, Bookkeeping, CarriesCall;
    var w' := StepStreamFails(w, c, stopped);
    PhaseShape(w, w', c);
    EndPublishes(w, w', c, FailOutcome(stopped));
  }

  lemma StreamFailsKeeps(w: World, c: nat, stopped: bool)
    requires Enabled(w, StreamFails(c, stopped)) && Inv(w)
    ensures Inv(Step(w, StreamFails(c, stopped)))
  {
    hide AgentInv, CancelsInv, HandlesInv, RunsInv, CallsInv, PlacesInv, QueuesInv, TerminalInv, LocalShape,
      LocalTerms, PublishFrame, CalmQueues, At;
    var w' := StepStreamFails(w, c, stopped);
    Localize(w, c);
    StreamFailsEffects(w, c, stopped);
    StreamFailsTerms(w, c, stopped);
    QueuesLocal(w, w', c);
    LocalKeeps(w, w', c);
  }

  lemma CoordinatorReturnsEffects(w: World, c: nat)
    requires At(w, c) && w.chains[c].phase.Unwinding? && w.chains[c].cleanups == []
    ensures var w' := StepCoordinatorReturns(w, c);
      LocalShape(w, w', c) && PublishFrame(w, w') && CalmQueues(w, w') && w'.agent == w.agent
  {
    hide LocalShape, PublishFrame, HasCleaner, FateKept, CarriesCall;
    var w' := StepCoordinatorReturns(w, c);
    PhaseShape(w, w', c);
    if w.chains[c].latest.Some? { PublishesOne(w, w', c); } else { PublishesNothing(w, w'); }
  }

  lemma CoordinatorReturnsKeeps(w: World, c: nat)
    requires Enabled(w, CoordinatorReturns(c)) && Inv(w)
    ensures Inv(Step(w, CoordinatorReturns(c)))
  {
    hide AgentInv, CancelsInv, HandlesInv, RunsInv, CallsInv, PlacesInv, QueuesInv, TerminalInv, LocalShape,
      LocalTerms, PublishFrame, CalmQueues, At;
    var w' := StepCoordinatorReturns(w, c);
    Localize(w, c);
    CoordinatorReturnsEffects(w, c);
    CoordinatorReturnsTerms(w, c);
    QueuesLocal(w, w', c);
    LocalKeeps(w, w', c);
  }

  lemma BackendReturnsEffects(w: World, c: nat)
    requires At(w, c) && w.chains[c].phase.Coordinated?
    ensures var w' := StepBackendReturns(w, c);
      LocalShape(w, w', c) && PublishFrame(w, w') && CalmQueues(w, w') && w'.agent == w.agent
  {
    hide LocalShape, PublishFrame, HasCleaner, FateKept, CarriesCall;
    var w' := StepBackendReturns(w, c);
    PhaseShape(w, w', c);
    var ch := w.chains[c];
    if ch.backend && ch.phase.outcome == Failed && ch.runID != "" && !ch.marked {
      PublishesOne(w, w', c);
    } else {
      PublishesNothing(w, w');
    }
  }

  lemma BackendReturnsKeeps(w: World, c: nat)
    requires Enabled(w, BackendReturns(c)) && Inv(w)
    ensures Inv(Step(w, BackendReturns(c)))
  {
    hide AgentInv, CancelsInv, HandlesInv, RunsInv, CallsInv, PlacesInv, QueuesInv, TerminalInv, LocalShape,
      LocalTerms, PublishFrame, CalmQueues, At;
    var w' := StepBackendReturns(w, c);
    Localize(w, c);
    BackendReturnsEffects(w, c);
    BackendReturnsTerms(w, c);
    QueuesLocal(w, w', c);
    LocalKeeps(w, w', c);
  }

  lemma CompletionDelKeeps(w: World, c: nat)
    requires Enabled(w, CompletionDel(c)) && Inv(w)
    ensures Inv(Step(w, CompletionDel(c)))
  {
    hide AgentInv, CancelsInv, HandlesInv, RunsInv, CallsInv, PlacesInv, QueuesInv, TerminalInv, LocalShape,
      LocalTerms, PublishFrame, At;
    var w' := StepCompletionDel(w, c);
    Localize(w, c);
    ShrinkKeeps(w.agent, w'.agent);
    CompletionDelLocal(w, c);
    PublishesNothing(w, w');
    QueuesLocal(w, w', c);
    LocalKeeps(w, w', c);
  }

  lemma CleanupKeeps(w: World, c: nat)
    requires Enabled(w, Cleanup(c)) && Inv(w)
    ensures Inv(Step(w, Cleanup(c)))
  {
    hide AgentInv, CancelsInv, HandlesInv, RunsInv, CallsInv, PlacesInv, QueuesInv, TerminalInv, LocalShape,
      LocalTerms, PublishFrame, At;
    var w' := StepCleanup(w, c);
    Localize(w, c);
    ShrinkKeeps(w.agent, w'.agent);
    CleanupLocal(w, c);
    PublishesNothing(w, w');
    QueuesLocal(w, w', c);
    LocalKeeps(w, w', c);
  }

  lemma ReleaseHandleKeeps(w: World, c: nat)
    requires Enabled(w, ReleaseHandle(c)) && Inv(w)
    ensures Inv(Step(w, ReleaseHandle(c)))
  {
    hide AgentInv, CancelsInv, HandlesInv, RunsInv, CallsInv, PlacesInv, QueuesInv, TerminalInv, LocalShape,
      LocalTerms, PublishFrame, At;
    var w' := StepReleaseHandle(w, c);
    Localize(w, c);
    CloseFacts(w.agent, w.chains[c].handle);
    ReleaseHandleShape(w, c);
    ReleaseHandleTerms(w, c);
    PublishesNothing(w, w');
    QueuesLocal(w, w', c);
    LocalKeeps(w, w', c);
  }

  // ------------------------------------------------------------- steps on the queue

  lemma SamePromptSameCall(q: seq<Call>, c: Call, d: Call)
    requires DistinctPrompts(q) && c in q && d in q && c.prompt == d.prompt
    ensures c == d
  {
  }

  lemma {:induction false} FilterKeepsDistinct(q: seq<Call>, p: Call -> bool)
    requires DistinctPrompts(q)
    ensures DistinctPrompts(Filter(q, p))
  {
    if q == [] {
    } else {
      FilterKeepsDistinct(q[1..], p);
      var rest := Filter(q[1..], p);
      forall j | 0 <= j < |rest| ensures rest[j].prompt != q[0].prompt {
        assert rest[j] in q[1..];
      }
    }
  }

  lemma {:induction false} EventsForDistinct(calls: seq<Call>, p: nat)
    requires DistinctPrompts(calls)
    ensures EventsFor(calls)[p] == if p in Prompts(calls) then 1 else 0
  {
    if calls == [] {
    } else {
      EventsForDistinct(calls[1..], p);
      assert Prompts(calls) == {calls[0].prompt} + Prompts(calls[1..]) by {
        forall c | c in calls ensures c == calls[0] || c in calls[1..] { }
      }
    }
  }

  /** `q` is split into kept calls, dropped calls that carry a RunID, and calls without
      one that end silently. */
  ghost predicate Splits(q: seq<Call>, keep: seq<Call>, told: seq<Call>, untold: seq<Call>) {
    && (forall c | c in q :: c in keep || c in told || c in untold)
    && (forall c | c in keep :: c in q && c !in told && c !in untold)
    && (forall c | c in told :: c in q && c.runID != "")
    && (forall c | c in untold :: c in q && c.runID == "")
    && DistinctPrompts(keep) && DistinctPrompts(told)
  }

  ghost predicate QueueBecomes(a: Agent, b: Agent, s: string, keep: seq<Call>) {
    && QueueOf(b, s) == keep
    && (s in b.queue ==> b.queue[s] == keep)
    && (forall t | t != s :: t in b.queue <==> t in a.queue)
    && (forall t | t != s && t in a.queue :: b.queue[t] == a.queue[t])
  }

  /** The effect of a split on one prompt. */
  ghost predicate Settled(w: World, w': World, s: string, keep: seq<Call>, told: seq<Call>, untold: seq<Call>, p: nat)
    requires p in w.places && p in w.chains && p in w'.places
  {
    if p in Prompts(told) then
      && w.places[p] == Waiting && w'.places[p] == Finished(Published)
      && w.chains[p].runID != "" && w.chains[p].session == s
    else if p in Prompts(untold) then
      w.places[p] == Waiting && w'.places[p] == Finished(Silent) && w.chains[p].runID == "" && w.chains[p].session == s
    else
      && w'.places[p] == w.places[p]
      && (w.places[p] == Waiting && w.chains[p].session == s ==> p in Prompts(keep))
  }

  lemma SettleOne(w: World, s: string, keep: seq<Call>, told: seq<Call>, untold: seq<Call>, p: nat)
    requires QueuesInv(w) && p in w.places
    requires Splits(QueueOf(w.agent, s), keep, told, untold)
    ensures Settled(w, Settle(w, told, untold), s, keep, told, untold, p)
  {
  }

  /** Settling part of a queue. */
  lemma SettleQueues(w: World, w': World, s: string, keep: seq<Call>, told: seq<Call>, untold: seq<Call>)
    requires QueuesInv(w) && Splits(QueueOf(w.agent, s), keep, told, untold)
    requires w'.chains == w.chains && w'.places == Settle(w, told, untold).places
    requires QueueBecomes(w.agent, w'.agent, s, keep)
    ensures QueuesInv(w')
  {
    var q := QueueOf(w.agent, s);
    forall t, call | t in w'.agent.queue && call in w'.agent.queue[t] ensures QueuedHere(w', t, call) {
      assert t in w.agent.queue && call in w.agent.queue[t];
      assert QueuedHere(w, t, call);
      SettleOne(w, s, keep, told, untold, call.prompt);
      if t == s {
        assert call in keep;
        if call.prompt in Prompts(told) + Prompts(untold) {
          var d :| d in told + untold && d.prompt == call.prompt;
          SamePromptSameCall(q, call, d);
          assert false;
        }
      }
    }
    forall p | p in w'.places && p in w'.chains && w'.places[p] == Waiting
      ensures p in Prompts(QueueOf(w'.agent, w'.chains[p].session))
    {
      SettleOne(w, s, keep, told, untold, p);
    }
  }

  /** Settled prompts are nobody's current prompt. */
  lemma SettleAll(w: World, w': World, s: string, keep: seq<Call>, told: seq<Call>, untold: seq<Call>)
    requires QueuesInv(w) && Splits(QueueOf(w.agent, s), keep, told, untold)
    requires w'.chains == w.chains && w'.places == Settle(w, told, untold).places
    ensures w'.places.Keys == w.places.Keys
    ensures forall p | p in w.places && p in w.chains :: Settled(w, w', s, keep, told, untold, p)
  {
  }

  lemma SettlePlaces(w: World, w': World, s: string, keep: seq<Call>, told: seq<Call>, untold: seq<Call>)
    requires PlacesInv(w)
    requires w'.chains == w.chains && w'.places.Keys == w.places.Keys
    requires forall p | p in w.places && p in w.chains :: Settled(w, w', s, keep, told, untold, p)
    ensures PlacesInv(w')
  {
  }

  lemma SettleCalls(w: World, w': World, s: string, keep: seq<Call>, told: seq<Call>, untold: seq<Call>)
    requires QueuesInv(w) && CallsInv(w)
    requires Splits(QueueOf(w.agent, s), keep, told, untold)
    requires w'.chains == w.chains && w'.places == Settle(w, told, untold).places
    ensures CallsInv(w')
  {
  }

  lemma SettleTerminals(w: World, w': World, s: string, keep: seq<Call>, told: seq<Call>, untold: seq<Call>)
    requires QueuesInv(w) && TerminalInv(w)
    requires Splits(QueueOf(w.agent, s), keep, told, untold)
    requires w'.chains == w.chains && w'.places == Settle(w, told, untold).places
    requires w'.published == Settle(w, told, untold).published
    ensures TerminalInv(w')
  {
    forall p | p in w.places ensures Settled(w, w', s, keep, told, untold, p) {
      SettleOne(w, s, keep, told, untold, p);
    }
    forall p: nat
      ensures w'.published[p] == if p in w'.places && w'.places[p] == Finished(Published) then 1 else 0
    {
      EventsForDistinct(told, p);
      if p in Prompts(told) {
        var c :| c in told && c.prompt == p;
        assert c in QueueOf(w.agent, s);
        assert QueuedHere(w, s, c);
      }
    }
    forall p | p in w'.places && p in w'.chains ensures FateKept(w', p) {
      assert FateKept(w, p);
    }
    forall c | c in w'.chains ensures Bookkeeping(w', c) {
      assert Bookkeeping(w, c);
    }
  }

  lemma SettleKeeps(w: World, w': World, s: string, keep: seq<Call>, told: seq<Call>, untold: seq<Call>)
    requires Inv(w) && Splits(QueueOf(w.agent, s), keep, told, untold)
    requires w' == Settle(w, told, untold).(agent := w'.agent, cancels := w'.cancels)
    requires QueueBecomes(w.agent, w'.agent, s, keep)
    requires AgentInv(w'.agent) && CancelsInv(w')
    requires w'.agent.open == w.agent.open && w'.agent.active == w.agent.active && w'.agent.gen == w.agent.gen
    ensures Inv(w')
  {
    SettleQueues(w, w', s, keep, told, untold);
    SettleAll(w, w', s, keep, told, untold);
    SettlePlaces(w, w', s, keep, told, untold);
    SettleCalls(w, w', s, keep, told, untold);
    SettleTerminals(w, w', s, keep, told, untold);
    SettleOwners(w, w');
  }

  /** Ownership does not look at places or queues. */
  lemma SettleOwners(w: World, w': World)
    requires HandlesInv(w) && RunsInv(w)
    requires w'.chains == w.chains && w'.holder == w.holder && w'.runOwner == w.runOwner
    requires w'.agent.open == w.agent.open && w'.agent.active == w.agent.active && w'.agent.gen == w.agent.gen
    ensures HandlesInv(w') && RunsInv(w')
  {
  }

  lemma DrainStepKeeps(w: World, c: nat)
    requires Enabled(w, DrainStep(c)) && Inv(w)
    ensures Inv(Step(w, DrainStep(c)))
  {
    hide AgentInv, HandlesInv, RunsInv, CallsInv, PlacesInv, TerminalInv, Splits, QueueBecomes;
    var s := w.chains[c].session;
    var q, m := QueueOf(w.agent, s), MarkOf(w.agent, s);
    var w' := Step(w, DrainStep(c));
    DrainKeeps(w.agent, s);
    DrainSplits(w, s);
    SettleKeeps(w, w', s, Select(q, m, true, Keep), Select(q, m, true, Announce),
                Select(q, m, true, Discard) + Select(q, m, true, Fold));
  }

  lemma DrainSplits(w: World, s: string)
    requires QueuesInv(w)
    ensures var q, m := QueueOf(w.agent, s), MarkOf(w.agent, s);
      && Splits(q, Select(q, m, true, Keep), Select(q, m, true, Announce),
                Select(q, m, true, Discard) + Select(q, m, true, Fold))
      && QueueBecomes(w.agent, Drain(w.agent, s), s, Select(q, m, true, Keep))
  {
    var q, m := QueueOf(w.agent, s), MarkOf(w.agent, s);
    FilterKeepsDistinct(q, (c: Call) => Classify(c, m, true) == Keep);
    FilterKeepsDistinct(q, (c: Call) => Classify(c, m, true) == Announce);
  }

  lemma ClearSplits(w: World, s: string)
    requires QueuesInv(w)
    ensures var q := QueueOf(w.agent, s);
      Splits(q, [], WithRunID(q), Filter(q, (c: Call) => c.runID == ""))
  {
    FilterKeepsDistinct(QueueOf(w.agent, s), (c: Call) => c.runID != "");
  }

  lemma CancelStartKeeps(w: World, s: string)
    requires Enabled(w, CancelStart(s)) && Inv(w)
    ensures Inv(Step(w, CancelStart(s)))
  {
    hide AgentInv, HandlesInv, RunsInv, CallsInv, PlacesInv, QueuesInv, TerminalInv;
    var w' := Step(w, CancelStart(s));
    ShrinkKeeps(w.agent, w'.agent);
    CancelStartRest(w, s);
    CancelStartReads(w, s);
    SettleOwners(w, w');
  }

  lemma CancelStartReads(w: World, s: string)
    requires AgentInv(w.agent) && CancelsInv(w)
    ensures CancelsInv(StepCancelStart(w, s))
  {
  }

  lemma CancelStartRest(w: World, s: string)
    requires CallsInv(w) && PlacesInv(w) && QueuesInv(w) && TerminalInv(w)
    ensures var w' := StepCancelStart(w, s); CallsInv(w') && PlacesInv(w') && QueuesInv(w') && TerminalInv(w')
  {
    var w' := StepCancelStart(w, s);
    SamePlaces(w, w');
  }

  /** Places, calls and terminal events do not look at the agent, except for its queues. */
  lemma SamePlaces(w: World, w': World)
    requires CallsInv(w) && PlacesInv(w) && QueuesInv(w) && TerminalInv(w)
    requires w'.chains == w.chains && w'.places == w.places && w'.published == w.published
    requires w'.agent.queue == w.agent.queue
    ensures CallsInv(w') && PlacesInv(w') && QueuesInv(w') && TerminalInv(w')
  {
    forall c | c in w'.chains ensures CarriesCall(w', c) && Places(w', c) && Bookkeeping(w', c) {
      assert CarriesCall(w, c) && Places(w, c) && Bookkeeping(w, c);
    }
    forall p | p in w'.places && p in w'.chains ensures Placed(w', p) && FateKept(w', p) {
      assert Placed(w, p) && FateKept(w, p);
    }
    forall t, call | t in w'.agent.queue && call in w'.agent.queue[t] ensures QueuedHere(w', t, call) {
      assert QueuedHere(w, t, call);
    }
  }

  lemma CancelFinishKeeps(w: World, s: string)
    requires Enabled(w, CancelFinish(s)) && Inv(w)
    ensures Inv(Step(w, CancelFinish(s)))
  {
    hide AgentInv, HandlesInv, RunsInv, CallsInv, PlacesInv, TerminalInv, Splits;
    var q := QueueOf(w.agent, s);
    RaiseAndClearKeeps(w.agent, s, w.cancels[s]);
    ClearSplits(w, s);
    SettleKeeps(w, Step(w, CancelFinish(s)), s, [], WithRunID(q), Filter(q, (c: Call) => c.runID == ""));
  }

  lemma ClearQueuedKeeps(w: World, s: string)
    requires Enabled(w, ClearQueued(s)) && Inv(w)
    ensures Inv(Step(w, ClearQueued(s)))
  {
    hide AgentInv, HandlesInv, RunsInv, CallsInv, PlacesInv, TerminalInv, Splits;
    var q := QueueOf(w.agent, s);
    ClearQueueKeeps(w.agent, s);
    ClearSplits(w, s);
    SettleKeeps(w, Step(w, ClearQueued(s)), s, [], WithRunID(q), Filter(q, (c: Call) => c.runID == ""));
  }

  // ---------------------------------------------------------------------- Run entry

  /** Entering Run closes the handle of the call, and nothing else changes about handles. */
  ghost predicate Entered(w: World, w': World, c: nat)
    requires c in w.chains && BeforeEntry(w.chains[c].phase)
  {
    var call := w.chains[c].phase.call;
    && w'.agent.gen == w.agent.gen
    && w'.agent.open == w.agent.open - (if call.accepted.Some? then {call.accepted.value} else {})
    && w'.holder == w.holder && w'.cancels == w.cancels
  }

  lemma EntryShape(w: World, w': World, c: nat)
    requires At(w, c) && BeforeEntry(w.chains[c].phase) && Entered(w, w', c)
    requires w'.agent.active == w.agent.active && w'.runOwner == w.runOwner
    requires c in w'.chains && w'.chains[c].phase.Unwinding?
    requires w'.chains ==
      w.chains[c := w.chains[c].(phase := w'.chains[c].phase, latest := w'.chains[c].latest)]
    ensures LocalShape(w, w', c)
  {
  }

  lemma EntryHandle(w: World, c: nat)
    requires AgentInv(w.agent) && At(w, c) && BeforeEntry(w.chains[c].phase)
    ensures AgentInv(EnterRun(w.agent, w.chains[c].phase.call, |w.runOwner|))
    ensures var call := w.chains[c].phase.call;
      && (call.accepted.Some? ==> 0 < call.accepted.value <= w.agent.gen)
      && (call.accepted.None? ==> call.acceptSeq == 0)
  {
    hide OwnsRuns, CarriesCall, Places, FateKept, Bookkeeping;
    EnterRunKeeps(w.agent, w.chains[c].phase.call, |w.runOwner|);
  }

  lemma EnterCancelTerms(w: World, c: nat, persistFails: bool)
    requires c in w.chains && At(w, c) && BeforeEntry(w.chains[c].phase)
    requires Decide(w.agent, w.chains[c].phase.call) == CancelOnEntry
    ensures LocalTerms(w, StepEnter(w, c, persistFails), c)
  {
    hide At, LocalTerms, EnterRun;
    EndTerms(w, StepEnter(w, c, persistFails), c, if persistFails then Failed else Ok);
  }

  lemma EnterCancelEffects(w: World, c: nat, persistFails: bool)
    requires AgentInv(w.agent) && At(w, c) && BeforeEntry(w.chains[c].phase)
    requires Decide(w.agent, w.chains[c].phase.call) == CancelOnEntry
    ensures var w' := StepEnter(w, c, persistFails);
      LocalShape(w, w', c) && PublishFrame(w, w') && AgentInv(w'.agent) && CalmQueues(w, w')
  {
    hide AgentInv, LocalShape, PublishFrame, CalmQueues, Places, OwnsHandle, OwnsRuns, HasCleaner, FateKept,
      Bookkeeping, CarriesCall, CloseOf;
    var call := w.chains[c].phase.call;
    var w' := StepEnter(w, c, persistFails);
    EntryHandle(w, c);
    CloseFacts(w.agent, call.accepted);
    EntryShape(w, w', c);
    EndPublishes(w, w', c, if persistFails then Failed else Ok);
  }

  lemma EnterCancelKeeps(w: World, c: nat, persistFails: bool)
    requires Enabled(w, Enter(c, persistFails)) && Inv(w)
    requires Decide(w.agent, w.chains[c].phase.call) == CancelOnEntry
    ensures Inv(Step(w, Enter(c, persistFails)))
  {
    hide AgentInv, CancelsInv, HandlesInv, RunsInv, CallsInv, PlacesInv, QueuesInv, TerminalInv, LocalShape,
      LocalTerms, PublishFrame, CalmQueues, At, StepEnter;
    var w' := StepEnter(w, c, persistFails);
    Localize(w, c);
    EnterCancelEffects(w, c, persistFails);
    EnterCancelTerms(w, c, persistFails);
    QueuesLocal(w, w', c);
    LocalKeeps(w, w', c);
  }

  lemma EnterJoinTerms(w: World, c: nat, persistFails: bool)
    requires At(w, c) && BeforeEntry(w.chains[c].phase)
    requires Decide(w.agent, w.chains[c].phase.call) == JoinQueue
    ensures LocalTerms(w, StepEnter(w, c, persistFails), c)
  {
    hide OwnsHandle, OwnsRuns, HasCleaner, CloseOf, Enqueue;
  }

  lemma CloseFacts(a: Agent, h: Option<nat>)
    requires AgentInv(a)
    ensures AgentInv(CloseOf(a, h))
    ensures CloseOf(a, h).open == a.open - (if h.Some? then {h.value} else {})
    ensures var b := CloseOf(a, h); b.queue == a.queue && b.active == a.active && b.gen == a.gen
  {
    if h.Some? { CloseHandleKeeps(a, h.value); } else { assert a.open - {} == a.open; }
  }

  /** The queued form of the prompt joins its session's queue. */
  lemma JoinQueues(w: World, c: nat, persistFails: bool)
    requires QueuesInv(w) && AgentInv(w.agent) && At(w, c) && BeforeEntry(w.chains[c].phase)
    requires Decide(w.agent, w.chains[c].phase.call) == JoinQueue
    ensures QueuesInv(StepEnter(w, c, persistFails))
  {
    hide AgentInv, OwnsHandle, OwnsRuns, HasCleaner, FateKept, Bookkeeping, CloseOf, DistinctPrompts, QueuedHere;
    var call := w.chains[c].phase.call;
    var w' := StepEnter(w, c, persistFails);
    JoinQueued(w, c, persistFails);
    JoinDistinct(w, c, persistFails);
    EntryHandle(w, c);
    EnqueueKeeps(w.agent, call);
    CloseFacts(Enqueue(w.agent, call), call.accepted);
    assert QueuedForm(call) in QueueOf(w'.agent, call.session);
    forall p | p in w'.places && p in w'.chains && w'.places[p] == Waiting && p != call.prompt
      ensures p in Prompts(QueueOf(w'.agent, w'.chains[p].session))
    {
      var d :| d in QueueOf(w.agent, w.chains[p].session) && d.prompt == p;
      assert d in QueueOf(w'.agent, w'.chains[p].session);
    }
  }

  lemma JoinQueued(w: World, c: nat, persistFails: bool)
    requires QueuesInv(w) && AgentInv(w.agent) && At(w, c) && BeforeEntry(w.chains[c].phase)
    requires Decide(w.agent, w.chains[c].phase.call) == JoinQueue
    ensures var w' := StepEnter(w, c, persistFails);
      forall t, d | t in w'.agent.queue && d in w'.agent.queue[t] :: QueuedHere(w', t, d)
  {
    hide AgentInv, OwnsHandle, OwnsRuns, HasCleaner, FateKept, Bookkeeping, CloseOf, DistinctPrompts;
    var call := w.chains[c].phase.call;
    var w' := StepEnter(w, c, persistFails);
    EntryHandle(w, c);
    EnqueueKeeps(w.agent, call);
    CloseFacts(Enqueue(w.agent, call), call.accepted);
    forall t, d | t in w'.agent.queue && d in w'.agent.queue[t] ensures QueuedHere(w', t, d) {
      if t in w.agent.queue && d in w.agent.queue[t] {
        assert QueuedHere(w, t, d);
      } else {
        assert t == call.session && d == QueuedForm(call);
      }
    }
  }

  lemma JoinDistinct(w: World, c: nat, persistFails: bool)
    requires QueuesInv(w) && AgentInv(w.agent) && At(w, c) && BeforeEntry(w.chains[c].phase)
    requires Decide(w.agent, w.chains[c].phase.call) == JoinQueue
    ensures var w' := StepEnter(w, c, persistFails);
      forall t | t in w'.agent.queue :: DistinctPrompts(w'.agent.queue[t])
  {
    hide AgentInv, OwnsHandle, OwnsRuns, HasCleaner, FateKept, Bookkeeping, CloseOf;
    var call := w.chains[c].phase.call;
    var w' := StepEnter(w, c, persistFails);
    EntryHandle(w, c);
    EnqueueKeeps(w.agent, call);
    CloseFacts(Enqueue(w.agent, call), call.accepted);
    forall t | t in w'.agent.queue ensures DistinctPrompts(w'.agent.queue[t]) {
      if t == call.session {
        var q := QueueOf(w.agent, t);
        forall i | 0 <= i < |q| ensures q[i].prompt != call.prompt {
          assert QueuedHere(w, t, q[i]);
        }
      }
    }
  }

  lemma EnterJoinEffects(w: World, c: nat, persistFails: bool)
    requires AgentInv(w.agent) && At(w, c) && BeforeEntry(w.chains[c].phase)
    requires Decide(w.agent, w.chains[c].phase.call) == JoinQueue
    ensures var w' := StepEnter(w, c, persistFails);
      LocalShape(w, w', c) && PublishFrame(w, w') && AgentInv(w'.agent)
  {
    hide AgentInv, LocalShape, PublishFrame, OwnsHandle, OwnsRuns, HasCleaner, FateKept, Bookkeeping,
      CarriesCall, CloseOf;
    var call := w.chains[c].phase.call;
    var w' := StepEnter(w, c, persistFails);
    EntryHandle(w, c);
    EnqueueKeeps(w.agent, call);
    CloseFacts(Enqueue(w.agent, call), call.accepted);
    EntryShape(w, w', c);
    PublishesNothing(w, w');
  }

  lemma EnterJoinKeeps(w: World, c: nat, persistFails: bool)
    requires Enabled(w, Enter(c, persistFails)) && Inv(w)
    requires Decide(w.agent, w.chains[c].phase.call) == JoinQueue
    ensures Inv(Step(w, Enter(c, persistFails)))
  {
    hide AgentInv, CancelsInv, HandlesInv, RunsInv, CallsInv, PlacesInv, QueuesInv, TerminalInv, LocalShape,
      LocalTerms, PublishFrame, CalmQueues, At, StepEnter;
    var w' := StepEnter(w, c, persistFails);
    Localize(w, c);
    EnterJoinEffects(w, c, persistFails);
    EnterJoinTerms(w, c, persistFails);
    JoinQueues(w, c, persistFails);
    LocalKeeps(w, w', c);
  }

  lemma EnterActiveTerms(w: World, c: nat, persistFails: bool)
    requires At(w, c) && BeforeEntry(w.chains[c].phase)
    requires Decide(w.agent, w.chains[c].phase.call) == BecomeActive
    ensures LocalTerms(w, StepEnter(w, c, persistFails), c)
  {
    hide OwnsHandle, OwnsRuns, HasCleaner, EnterRun, Decide;
  }

  lemma EnterActiveShape(w: World, w': World, c: nat)
    requires At(w, c) && BeforeEntry(w.chains[c].phase) && Entered(w, w', c)
    requires var call, r := w.chains[c].phase.call, |w.runOwner|;
      && call.session !in w.agent.active
      && w'.agent.active == w.agent.active[call.session := r] && w'.runOwner == w.runOwner + [c]
      && w'.chains == w.chains[c := w.chains[c].(phase := Starting(call, r), cleanups := w.chains[c].cleanups + [r])]
    ensures LocalShape(w, w', c)
  {
  }

  lemma EnterActiveEffects(w: World, c: nat, persistFails: bool)
    requires AgentInv(w.agent) && At(w, c) && BeforeEntry(w.chains[c].phase)
    requires Decide(w.agent, w.chains[c].phase.call) == BecomeActive
    ensures var w' := StepEnter(w, c, persistFails);
      LocalShape(w, w', c) && PublishFrame(w, w') && AgentInv(w'.agent) && CalmQueues(w, w')
  {
    hide AgentInv, LocalShape, PublishFrame, OwnsHandle, OwnsRuns, HasCleaner, FateKept, Bookkeeping, CloseOf;
    var call := w.chains[c].phase.call;
    var w' := StepEnter(w, c, persistFails);
    EntryHandle(w, c);
    var b := w.agent.(active := w.agent.active[call.session := |w.runOwner|]);
    ShrinkKeeps(w.agent, b);
    CloseFacts(b, call.accepted);
    EnterActiveShape(w, w', c);
    PublishesNothing(w, w');
  }

  lemma EnterActiveKeeps(w: World, c: nat, persistFails: bool)
    requires Enabled(w, Enter(c, persistFails)) && Inv(w)
    requires Decide(w.agent, w.chains[c].phase.call) == BecomeActive
    ensures Inv(Step(w, Enter(c, persistFails)))
  {
    hide AgentInv, CancelsInv, HandlesInv, RunsInv, CallsInv, PlacesInv, QueuesInv, TerminalInv, LocalShape,
      LocalTerms, PublishFrame, CalmQueues, At, StepEnter;
    var w' := StepEnter(w, c, persistFails);
    Localize(w, c);
    EnterActiveEffects(w, c, persistFails);
    EnterActiveTerms(w, c, persistFails);
    QueuesLocal(w, w', c);
    LocalKeeps(w, w', c);
  }

  // ------------------------------------------------------------------------ handoff

  /** The handoff section, once the covered calls are gone from the queue. */
  function HandIdle(w: World, c: nat): World
    requires c in w.chains && w.chains[c].phase.Completing?
  {
    Emit(WithPhase(w.(agent := HandoffIdle(w.agent, w.chains[c].session)), c, Unwinding(Ok)), c, w.chains[c].phase.call)
  }

  function HandNext(w: World, c: nat): World
    requires c in w.chains && w.chains[c].phase.Completing? && QueueOf(w.agent, w.chains[c].session) != []
  {
    var s := w.chains[c].session;
    var call := w.chains[c].phase.call;
    var q := QueueOf(w.agent, s);
    var next := q[0].(accepted := Some(w.agent.gen + 1));
    var w1 := w.(agent := BeginAccepted(SetQueue(w.agent, s, q[1..]), s), holder := w.holder[w.agent.gen + 1 := c]);
    var w2 := WithPlace(WithPhase(w1, c, HandedOff(next)), next.prompt, Pending(c));
    if Owes(call, q) then Emit(w2, c, call) else WithPlace(w2, call.prompt, Finished(Silent))
  }

  lemma IdleTerms(w: World, c: nat)
    requires c in w.chains && At(w, c) && w.chains[c].phase.Completing?
    ensures LocalTerms(w, HandIdle(w, c), c)
  {
    hide At, LocalTerms, HandoffIdle;
    EndTerms(w, HandIdle(w, c), c, Ok);
  }

  lemma IdleShape(w: World, c: nat)
    requires At(w, c) && w.chains[c].phase.Completing? && w.chains[c].session !in w.agent.queue
    ensures LocalShape(w, HandIdle(w, c), c)
  {
    hide LocalShape, OwnsHandle, OwnsRuns, HasCleaner, FateKept, Bookkeeping, CarriesCall, Places, HandoffIdle;
    IdleAgent(w.agent, w.chains[c].session);
    PhaseShape(w, HandIdle(w, c), c);
  }

  lemma IdleEffects(w: World, c: nat)
    requires At(w, c) && w.chains[c].phase.Completing? && w.chains[c].session !in w.agent.queue
    ensures PublishFrame(w, HandIdle(w, c)) && CalmQueues(w, HandIdle(w, c))
    ensures HandIdle(w, c).agent == HandoffIdle(w.agent, w.chains[c].session)
  {
    hide PublishFrame, CalmQueues, Places, OwnsHandle, OwnsRuns, HasCleaner, FateKept, Bookkeeping,
      CarriesCall, HandoffIdle;
    IdleAgent(w.agent, w.chains[c].session);
    EndPublishes(w, HandIdle(w, c), c, Ok);
  }

  lemma IdleAgent(a: Agent, s: string)
    requires s !in a.queue
    ensures var b := HandoffIdle(a, s);
      b.queue == a.queue && b.open == a.open && b.active == a.active && b.gen == a.gen
  {
  }

  lemma IdleKeeps(w: World, c: nat)
    requires Inv(w) && c in w.chains && w.chains[c].phase.Completing?
    requires w.chains[c].session !in w.agent.queue
    ensures Inv(HandIdle(w, c))
  {
    hide AgentInv, CancelsInv, HandlesInv, RunsInv, CallsInv, PlacesInv, QueuesInv, TerminalInv, LocalShape,
      LocalTerms, PublishFrame, CalmQueues, At;
    Localize(w, c);
    HandoffKeeps(w.agent, w.chains[c].session);
    IdleShape(w, c);
    IdleEffects(w, c);
    IdleTerms(w, c);
    QueuesLocal(w, HandIdle(w, c), c);
    LocalKeeps(w, HandIdle(w, c), c);
  }

  /** What is known about the head of the queue when `c` is about to hand off. */
  ghost predicate NextFacts(w: World, c: nat)
    requires c in w.chains && w.chains[c].phase.Completing? && QueueOf(w.agent, w.chains[c].session) != []
  {
    var s := w.chains[c].session;
    var call := w.chains[c].phase.call;
    var first := QueueOf(w.agent, s)[0];
    && QueuedHere(w, s, first) && WellQueued(w.agent, s, first)
    && first.prompt != c && first.prompt != call.prompt
    && (Owes(call, QueueOf(w.agent, s)) <==> call.runID != "")
    && w.agent.gen + 1 !in w.holder
  }

  lemma KnowNext(w: World, c: nat)
    requires QueuesInv(w) && CallsInv(w) && At(w, c) && w.chains[c].phase.Completing?
    requires forall t, d | t in w.agent.queue && d in w.agent.queue[t] :: WellQueued(w.agent, t, d)
    requires QueueOf(w.agent, w.chains[c].session) != []
    ensures NextFacts(w, c)
  {
  }

  /** HandNext, field by field. */
  ghost predicate NextForm(w: World, w': World, c: nat)
    requires c in w.chains && w.chains[c].phase.Completing? && QueueOf(w.agent, w.chains[c].session) != []
  {
    var s, ch := w.chains[c].session, w.chains[c];
    var call, q := ch.phase.call, QueueOf(w.agent, s);
    var next := q[0].(accepted := Some(w.agent.gen + 1));
    var hooks := call.runID != "" && call.hooked;
    && w'.agent == BeginAccepted(SetQueue(w.agent, s, q[1..]), s)
    && w'.holder == w.holder[w.agent.gen + 1 := c]
    && w'.runOwner == w.runOwner && w'.cancels == w.cancels
    && w'.chains == w.chains[
         c := ch.(phase := HandedOff(next), latest := if hooks then Some(call.prompt) else ch.latest)]
    && w'.places == w.places[next.prompt := Pending(c)][call.prompt :=
         Finished(if call.runID == "" then Silent else if call.hooked then Buffered(c) else Published)]
    && w'.published == if call.runID != "" && !call.hooked then w.published + multiset{call.prompt} else w.published
  }

  lemma NextHasForm(w: World, c: nat)
    requires c in w.chains && w.chains[c].phase.Completing?
    requires QueueOf(w.agent, w.chains[c].session) != [] && NextFacts(w, c)
    ensures NextForm(w, HandNext(w, c), c)
  {
  }

  lemma NextShape(w: World, w': World, c: nat)
    requires At(w, c) && w.chains[c].phase.Completing? && QueueOf(w.agent, w.chains[c].session) != []
    requires NextFacts(w, c) && NextForm(w, w', c)
    ensures LocalShape(w, w', c)
  {
  }

  lemma NextFrames(w: World, w': World, c: nat)
    requires At(w, c) && w.chains[c].phase.Completing? && QueueOf(w.agent, w.chains[c].session) != []
    requires NextFacts(w, c) && NextForm(w, w', c)
    ensures c in w'.chains && c in w'.places && w'.places.Keys == w'.chains.Keys
    ensures PlaceFrame(w, w', c) && Places(w', c)
    ensures forall p | p in w'.places && (w'.places[p] == Pending(c) || w'.places[p] == Running(c)) :: Placed(w', p)
  {
    hide At, NextFacts, NextForm, PlaceFrame, Places, Placed;
    NextPlaced(w, w', c);
    NextPlaceFrame(w, w', c);
    NextPlacesCall(w, w', c);
  }

  lemma NextPlaceFrame(w: World, w': World, c: nat)
    requires At(w, c) && w.chains[c].phase.Completing? && QueueOf(w.agent, w.chains[c].session) != []
    requires NextFacts(w, c) && NextForm(w, w', c)
    ensures PlaceFrame(w, w', c)
  {
    hide OwnsHandle, OwnsRuns, HasCleaner, FateKept, Bookkeeping, CarriesCall, WellQueued, Owes, Placed;
  }

  lemma NextPlacesCall(w: World, w': World, c: nat)
    requires At(w, c) && w.chains[c].phase.Completing? && QueueOf(w.agent, w.chains[c].session) != []
    requires NextFacts(w, c) && NextForm(w, w', c)
    ensures c in w'.chains && Places(w', c)
  {
    hide OwnsHandle, OwnsRuns, HasCleaner, FateKept, Bookkeeping, CarriesCall, WellQueued, Owes, Placed;
  }

  lemma NextPlaced(w: World, w': World, c: nat)
    requires At(w, c) && w.chains[c].phase.Completing? && QueueOf(w.agent, w.chains[c].session) != []
    requires NextFacts(w, c) && NextForm(w, w', c)
    ensures c in w'.chains && c in w'.places && w'.places.Keys == w'.chains.Keys
    ensures forall p | p in w'.places && (w'.places[p] == Pending(c) || w'.places[p] == Running(c)) :: Placed(w', p)
  {
  }

  lemma NextFates(w: World, w': World, c: nat)
    requires At(w, c) && w.chains[c].phase.Completing? && QueueOf(w.agent, w.chains[c].session) != []
    requires NextFacts(w, c) && NextForm(w, w', c)
    ensures c in w'.chains && c in w'.places
    ensures CarriesCall(w', c) && Bookkeeping(w', c) && FateKept(w', c)
    ensures forall p |
      p in w'.places && p in w'.chains && p != c && !(p in w.places && w'.places[p] == w.places[p]) :: FateKept(w', p)
  {
    hide OwnsHandle, OwnsRuns, HasCleaner, Owes;
  }

  lemma NextTerms(w: World, w': World, c: nat)
    requires At(w, c) && w.chains[c].phase.Completing? && QueueOf(w.agent, w.chains[c].session) != []
    requires NextFacts(w, c) && NextForm(w, w', c)
    ensures LocalTerms(w, w', c)
  {
    hide At, NextFacts, NextForm, PlaceFrame, Places, CarriesCall, Bookkeeping, FateKept, Placed;
    NextFrames(w, w', c);
    NextFates(w, w', c);
  }

  lemma NextQueues(w: World, w': World, c: nat)
    requires QueuesInv(w) && At(w, c) && w.chains[c].phase.Completing?
    requires QueueOf(w.agent, w.chains[c].session) != [] && NextFacts(w, c) && NextForm(w, w', c)
    ensures QueuesInv(w')
  {
    hide QueuedHere, OwnsHandle, OwnsRuns, HasCleaner, Bookkeeping, FateKept, Owes, CarriesCall, WellQueued;
    NextQueued(w, w', c);
    NextWaiting(w, w', c);
    NextPlaced(w, w', c);
    hide At, NextFacts;
  }

  lemma NextQueued(w: World, w': World, c: nat)
    requires QueuesInv(w) && At(w, c) && w.chains[c].phase.Completing?
    requires QueueOf(w.agent, w.chains[c].session) != [] && NextFacts(w, c) && NextForm(w, w', c)
    ensures forall t, d | t in w'.agent.queue && d in w'.agent.queue[t] :: QueuedHere(w', t, d)
  {
    hide OwnsHandle, OwnsRuns, HasCleaner, Bookkeeping, FateKept, Owes, CarriesCall, WellQueued;
    var s := w.chains[c].session;
    var q := QueueOf(w.agent, s);
    assert w.places[w.chains[c].phase.call.prompt] == Running(c);
    forall t, d | t in w'.agent.queue && d in w'.agent.queue[t] ensures QueuedHere(w', t, d) {
      assert QueuedHere(w, t, d);
      if t == s {
        var i :| 0 <= i < |q[1..]| && q[1..][i] == d;
        assert q[i + 1].prompt != q[0].prompt;
      }
    }
  }

  lemma NextWaiting(w: World, w': World, c: nat)
    requires QueuesInv(w) && At(w, c) && w.chains[c].phase.Completing?
    requires QueueOf(w.agent, w.chains[c].session) != [] && NextFacts(w, c) && NextForm(w, w', c)
    ensures forall p | p in w'.places && p in w'.chains && w'.places[p] == Waiting ::
              p in Prompts(QueueOf(w'.agent, w'.chains[p].session))
  {
    hide QueuedHere, DistinctPrompts, OwnsHandle, OwnsRuns, HasCleaner, Bookkeeping, FateKept, Owes,
      CarriesCall, WellQueued;
    var s := w.chains[c].session;
    var q := QueueOf(w.agent, s);
    forall p | p in w'.places && p in w'.chains && w'.places[p] == Waiting
      ensures p in Prompts(QueueOf(w'.agent, w'.chains[p].session))
    {
      var d :| d in QueueOf(w.agent, w.chains[p].session) && d.prompt == p;
      if w.chains[p].session == s {
        assert d != q[0];
        assert d in q[1..];
      }
    }
  }

  lemma NextPublishes(w: World, w': World, c: nat)
    requires At(w, c) && w.chains[c].phase.Completing? && QueueOf(w.agent, w.chains[c].session) != []
    requires NextFacts(w, c) && NextForm(w, w', c)
    ensures PublishFrame(w, w')
  {
  }

  lemma NextKeeps(w: World, c: nat)
    requires Inv(w) && c in w.chains && w.chains[c].phase.Completing?
    requires QueueOf(w.agent, w.chains[c].session) != []
    ensures Inv(HandNext(w, c))
  {
    hide CancelsInv, HandlesInv, RunsInv, CallsInv, PlacesInv, QueuesInv, TerminalInv, LocalShape, LocalTerms,
      PublishFrame, At, NextFacts, HandNext;
    var s := w.chains[c].session;
    var w' := HandNext(w, c);
    Localize(w, c);
    KnowNext(w, c);
    var b := SetQueue(w.agent, s, QueueOf(w.agent, s)[1..]);
    ShrinkKeeps(w.agent, b);
    BeginAcceptedKeeps(b, s);
    NextHasForm(w, c);
    NextShape(w, w', c);
    NextTerms(w, w', c);
    NextQueues(w, w', c);
    NextPublishes(w, w', c);
    LocalKeeps(w, w', c);
  }

  /** The state in the middle of the handoff section: the covered calls are dropped. */
  function MidHandOff(w: World, c: nat): World
    requires c in w.chains
  {
    var s := w.chains[c].session;
    var q, m := QueueOf(w.agent, s), MarkOf(w.agent, s);
    var rest := Survivors(w.agent, s);
    var b := if rest == [] then DropQueue(w.agent, s) else SetQueue(w.agent, s, rest);
    Settle(w, Select(q, m, false, Announce), Select(q, m, false, Discard)).(agent := b)
  }

  lemma HandOffIsIdle(w: World, c: nat)
    requires c in w.chains && w.chains[c].phase.Completing? && Survivors(w.agent, w.chains[c].session) == []
    ensures var mid := MidHandOff(w, c);
      mid.chains == w.chains && w.chains[c].session !in mid.agent.queue && StepHandOff(w, c) == HandIdle(mid, c)
  {
    hide Survivors, Select, Owes;
    var s := w.chains[c].session;
    assert w.agent.queue - {s} - {s} == w.agent.queue - {s};
  }

  lemma HandOffIsNext(w: World, c: nat)
    requires c in w.chains && w.chains[c].phase.Completing? && Survivors(w.agent, w.chains[c].session) != []
    ensures var mid := MidHandOff(w, c);
      && mid.chains == w.chains
      && QueueOf(mid.agent, w.chains[c].session) != []
      && StepHandOff(w, c) == HandNext(mid, c)
  {
    hide Survivors, Select, Owes, EventsFor, Prompts, Emit;
    var s := w.chains[c].session;
    var rest := Survivors(w.agent, s);
    assert w.agent.queue[s := rest][s := rest[1..]] == w.agent.queue[s := rest[1..]];
  }

  lemma MidKeeps(w: World, c: nat)
    requires Inv(w) && c in w.chains
    ensures Inv(MidHandOff(w, c))
  {
    hide HandlesInv, RunsInv, CallsInv, PlacesInv, TerminalInv, Splits, QueueBecomes;
    var s := w.chains[c].session;
    var q, m := QueueOf(w.agent, s), MarkOf(w.agent, s);
    var mid := MidHandOff(w, c);
    ShrinkKeeps(w.agent, mid.agent);
    HandOffSplits(w, s, mid.agent);
    SettleKeeps(w, mid, s, Survivors(w.agent, s), Select(q, m, false, Announce), Select(q, m, false, Discard));
  }

  lemma HandOffKeeps(w: World, c: nat)
    requires Enabled(w, HandOff(c)) && Inv(w)
    ensures Inv(Step(w, HandOff(c)))
  {
    hide Inv, MidHandOff, StepHandOff, HandIdle, HandNext, Survivors;
    MidKeeps(w, c);
    if Survivors(w.agent, w.chains[c].session) == [] {
      HandOffIsIdle(w, c);
      IdleKeeps(MidHandOff(w, c), c);
    } else {
      HandOffIsNext(w, c);
      NextKeeps(MidHandOff(w, c), c);
    }
  }

  lemma HandOffSplits(w: World, s: string, b: Agent)
    requires QueuesInv(w)
    requires var rest := Survivors(w.agent, s);
      b == if rest == [] then DropQueue(w.agent, s) else SetQueue(w.agent, s, rest)
    ensures var q, m := QueueOf(w.agent, s), MarkOf(w.agent, s);
      && Splits(q, Survivors(w.agent, s), Select(q, m, false, Announce), Select(q, m, false, Discard))
      && QueueBecomes(w.agent, b, s, Survivors(w.agent, s))
  {
    var q, m := QueueOf(w.agent, s), MarkOf(w.agent, s);
    FilterKeepsDistinct(q, (c: Call) => Classify(c, m, false) == Keep);
    FilterKeepsDistinct(q, (c: Call) => Classify(c, m, false) == Announce);
  }

  // -------------------------------------------------------------------- every step

  /** Every step of the protocol keeps the invariant. */
  lemma StepKeeps(w: World, e: Event)
    requires Enabled(w, e) && Inv(w)
    ensures Inv(Step(w, e))
  {
    hide Inv;
    match e
    case Accept(p, s, runID) => AcceptKeeps(w, p, s, runID);
    case SubmitLocal(p, s, runID) => SubmitLocalKeeps(w, p, s, runID);
    case Refuse(c) => RefuseKeeps(w, c);
    case FailBeforeRun(c, stopped) => FailBeforeRunKeeps(w, c, stopped, e);
    case Enter(c, persistFails) =>
      match Decide(w.agent, w.chains[c].phase.call) {
        case CancelOnEntry => EnterCancelKeeps(w, c, persistFails);
        case JoinQueue => EnterJoinKeeps(w, c, persistFails);
        case BecomeActive => EnterActiveKeeps(w, c, persistFails);
      }
    case LookupFails(c, stopped) => FailBeforeRunKeeps(w, c, stopped, e);
    case LookupsDone(c) => LookupsDoneKeeps(w, c);
    case DrainStep(c) => DrainStepKeeps(w, c);
    case StreamFails(c, stopped) => StreamFailsKeeps(w, c, stopped);
    case CompletionDel(c) => CompletionDelKeeps(w, c);
    case HandOff(c) => HandOffKeeps(w, c);
    case Cleanup(c) => CleanupKeeps(w, c);
    case CoordinatorReturns(c) => CoordinatorReturnsKeeps(w, c);
    case BackendReturns(c) => BackendReturnsKeeps(w, c);
    case ReleaseHandle(c) => ReleaseHandleKeeps(w, c);
    case CancelStart(s) => CancelStartKeeps(w, s);
    case CancelFinish(s) => CancelFinishKeeps(w, s);
    case ClearQueued(s) => ClearQueuedKeeps(w, s);
  }

  /** The invariant holds in every state of every run. */
  lemma {:induction false} RunKeeps(ws: seq<World>, es: seq<Event>, i: nat)
    requires IsRun(ws, es) && i < |ws|
    ensures Inv(ws[i])
  {
    if i == 0 {
      StartInv();
    } else {
      RunKeeps(ws, es, i - 1);
      StepKeeps(ws[i - 1], es[i - 1]);
    }
  }
}
