/** What every section does to the queue and the mark of its session, over every run of the
    dispatch protocol: the fate of each queued prompt, the order of the queue, and when a mark
    comes and goes. */
module QueueTheorems {
  import opened Common
  import opened AgentState
  import opened AgentInvariants
  import opened DispatchProtocol
  import opened DispatchInvariants
  import opened DispatchMoves
  import opened DispatchTheorems
  import opened SessionTheorems

  // --------------------------------------------------------------- marks come and go

  lemma LastClose(a: Agent, h: nat, s: string)
    requires Counted(a.accepted, a.open) && h in a.open && a.open[h] == s
    requires OpenHandles(CloseHandle(a, h).open, s) == {}
    ensures MarkOf(CloseHandle(a, h), s) == 0
  {
    CountedAfterClose(a, h);
    assert Lookup(CloseHandle(a, h).accepted, s, 0) == 0;
    assert Lookup(a.accepted, s, 0) == |OpenHandles(a.open, s)|;
    assert h in OpenHandles(a.open, s);
  }

  lemma LastCloseOf(a: Agent, h: Option<nat>, s: string)
    requires Counted(a.accepted, a.open) && OpenHandles(a.open, s) != {} && OpenHandles(CloseOf(a, h).open, s) == {}
    ensures MarkOf(CloseOf(a, h), s) == 0
  {
    var g :| g in OpenHandles(a.open, s);
    assert g !in OpenHandles(CloseOf(a, h).open, s);
    assert h == Some(g);
    LastClose(a, g, s);
  }

  lemma LastEntry(a: Agent, call: Call, run: nat, s: string)
    requires Counted(a.accepted, a.open)
    requires OpenHandles(a.open, s) != {} && OpenHandles(EnterRun(a, call, run).open, s) == {}
    ensures MarkOf(EnterRun(a, call, run), s) == 0
  {
    hide Counted, CloseOf;
    match Decide(a, call)
    case CancelOnEntry => LastCloseOf(a, call.accepted, s);
    case JoinQueue => LastCloseOf(Enqueue(a, call), call.accepted, s);
    case BecomeActive => LastCloseOf(a.(active := a.active[call.session := run]), call.accepted, s);
  }

  /** The mark goes with the last handle: a step that closes the last open reservation of a
      session leaves the session without a mark. */
  lemma MarkGoesWithLastHandle(ws: seq<World>, es: seq<Event>, i: nat, s: string)
    requires IsRun(ws, es) && i < |es|
    requires OpenHandles(ws[i].agent.open, s) != {} && OpenHandles(ws[i + 1].agent.open, s) == {}
    ensures MarkOf(ws[i + 1].agent, s) == 0
  {
    hide Inv, Step, AgentAfter, EnterRun, CloseOf;
    RunKeeps(ws, es, i);
    AgentInvOf(ws[i]);
    hide Counted;
    AgentStep(ws[i], es[i]);
    LastStep(ws[i], es[i], s);
  }

  lemma LastStep(w: World, e: Event, s: string)
    requires Enabled(w, e) && AgentInv(w.agent) && Counted(w.agent.accepted, w.agent.open)
    requires OpenHandles(w.agent.open, s) != {} && OpenHandles(AgentAfter(w, e).open, s) == {}
    ensures MarkOf(AgentAfter(w, e), s) == 0
  {
    hide AgentInv, Counted, EnterRun, CloseOf, Drain, Survivors, HandoffIdle, HandoffNext, RaiseAndClear, ClearQueue,
      BeginAccepted, DeleteActive, CompareAndDelete, StopActive;
    match e
    case Enter(c, _) => LastEntry(w.agent, w.chains[c].phase.call, |w.runOwner|, s);
    case ReleaseHandle(c) => LastCloseOf(w.agent, w.chains[c].handle, s);
    case _ => OpenStays(w, e, s);
  }

  lemma OpenStays(w: World, e: Event, s: string)
    requires Enabled(w, e) && !e.Enter? && !e.ReleaseHandle? && AgentInv(w.agent)
    ensures OpenHandles(w.agent.open, s) <= OpenHandles(AgentAfter(w, e).open, s)
  {
    hide Survivors, Select;
  }

  /** The reading of a Cancel stays until it ends. */
  lemma {:induction false} ReadingStays(ws: seq<World>, es: seq<Event>, s: string, i: nat, k: nat)
    requires IsRun(ws, es) && i < k <= |es| && es[i] == CancelStart(s)
    requires forall m | i < m < k :: es[m] != CancelFinish(s)
    ensures s in ws[k].cancels && ws[k].cancels[s] == ReadForCancel(ws[i].agent, s)
  {
    hide Step, Enabled;
    if k == i + 1 {
      CancelsFrom(ws[i], es[i]);
    } else {
      ReadingStays(ws, es, s, i, k - 1);
      CancelReadStays(ws[k - 1], es[k - 1], s);
    }
  }

  function Later(x: nat, y: nat): (r: nat)
    ensures r >= x && r >= y && (r == x || r == y)
  {
    if x < y then y else x
  }

  /** The mark after a Cancel is exact: it rises to the sequences given out by the time the
      Cancel started if a reservation of the session was open then, and else stays as it is. */
  lemma CancelMarkIsExact(ws: seq<World>, es: seq<Event>, s: string, i: nat, j: nat)
    requires IsRun(ws, es) && i < j < |es| && es[i] == CancelStart(s) && es[j] == CancelFinish(s)
    requires forall m | i < m < j :: es[m] != CancelFinish(s)
    ensures MarkOf(ws[j + 1].agent, s)
         == if OpenHandles(ws[i].agent.open, s) != {} then Later(MarkOf(ws[j].agent, s), ws[i].agent.gen)
            else MarkOf(ws[j].agent, s)
    ensures QueueOf(ws[j + 1].agent, s) == []
  {
    hide Inv, Step, Enabled, AgentAfter;
    RunKeeps(ws, es, i);
    AgentInvOf(ws[i]);
    ReadingStays(ws, es, s, i, j);
    assert Enabled(ws[j], es[j]);
    AgentStep(ws[j], es[j]);
    FinishIs(ws[j], s);
    assert Lookup(ws[i].agent.accepted, s, 0) == |OpenHandles(ws[i].agent.open, s)|;
  }

  lemma FinishIs(w: World, s: string)
    requires s in w.cancels
    ensures var a := AgentAfter(w, CancelFinish(s)); var read := w.cancels[s];
      && MarkOf(a, s) == (if read.inFlight then Later(MarkOf(w.agent, s), read.gen) else MarkOf(w.agent, s))
      && QueueOf(a, s) == []
      && (!read.inFlight && QueueOf(w.agent, s) == [] ==> a == w.agent)
  {
  }

  /** A Cancel of an idle session does nothing at all: without a registered run, an open
      reservation or a queued prompt of the session, neither of its sections changes the agent. */
  lemma IdleCancelChangesNothing(ws: seq<World>, es: seq<Event>, s: string, i: nat, j: nat)
    requires IsRun(ws, es) && i < j < |es| && es[i] == CancelStart(s) && es[j] == CancelFinish(s)
    requires forall m | i < m < j :: es[m] != CancelFinish(s)
    requires s !in ws[i].agent.active && OpenHandles(ws[i].agent.open, s) == {} && QueueOf(ws[j].agent, s) == []
    ensures ws[i + 1].agent == ws[i].agent && ws[j + 1].agent == ws[j].agent
  {
    hide Inv, Step, AgentAfter;
    RunKeeps(ws, es, i);
    AgentInvOf(ws[i]);
    ReadingStays(ws, es, s, i, j);
    AgentStep(ws[j], es[j]);
    FinishIs(ws[j], s);
    AgentStep(ws[i], es[i]);
    StartIs(ws[i], s);
    assert Lookup(ws[i].agent.accepted, s, 0) == |OpenHandles(ws[i].agent.open, s)|;
  }

  lemma StartIs(w: World, s: string)
    requires s !in w.cancels
    ensures AgentAfter(w, CancelStart(s)) == StopActive(w.agent, s)
    ensures s !in w.agent.active ==> AgentAfter(w, CancelStart(s)) == w.agent
  {
  }

  // ------------------------------------------------------------ the fate of a queued prompt

  /** The session's mark ends this queued call: it came without a reservation. No reachable
      state has a tracked queued call at or below the mark. */
  ghost predicate Ends(w: World, s: string, call: Call) { MarkOf(w.agent, s) > 0 && call.acceptSeq == 0 }

  function Ended(call: Call): Place { Finished(if call.runID != "" then Published else Silent) }

  lemma EndsIsCovered(w: World, s: string, call: Call)
    requires Inv(w) && call in QueueOf(w.agent, s)
    ensures CoveredBy(MarkOf(w.agent, s), call.acceptSeq) <==> Ends(w, s, call)
    ensures call.prompt in w.places && w.places[call.prompt] == Waiting && call.prompt in w.chains
    ensures w.chains[call.prompt].session == s && w.chains[call.prompt].runID == call.runID
  {
    assert WellQueued(w.agent, s, call) && QueuedHere(w, s, call);
  }

  /** A section splits the queue of `s`: what that says about one call of it. */
  lemma SplitDecides(
      w: World, w': World, s: string, keep: seq<Call>, told: seq<Call>, untold: seq<Call>, call: Call)
    requires QueuesInv(w) && call in QueueOf(w.agent, s) && call.prompt in w.places && call.prompt in w.chains
    requires call.prompt in w'.places && Settled(w, w', s, keep, told, untold, call.prompt)
    requires w.places[call.prompt] == Waiting && Splits(QueueOf(w.agent, s), keep, told, untold)
    ensures w'.places[call.prompt]
         == if call in told then Finished(Published) else if call in untold then Finished(Silent) else Waiting
  {
    OnlyThisCall(w, s, call);
  }

  /** At a step drain every queued prompt is decided: one that a mark covers ends, with an event
      if it has a RunID; of the others, one without a RunID is folded into the running turn and
      one with a RunID keeps waiting. */
  lemma DrainDecidesEach(ws: seq<World>, es: seq<Event>, i: nat, c: nat, call: Call)
    requires IsRun(ws, es) && i < |es| && es[i] == DrainStep(c) && c in ws[i].chains
    requires call in QueueOf(ws[i].agent, ws[i].chains[c].session)
    ensures var s, w := ws[i].chains[c].session, ws[i];
      && call.prompt in ws[i + 1].places
      && ws[i + 1].places[call.prompt]
         == (if Ends(w, s, call) then Ended(call) else if call.runID == "" then Finished(Silent) else Waiting)
      && (FoldedBy(w, es[i], call.prompt) <==> !Ends(w, s, call) && call.runID == "")
  {
    hide Inv, Step;
    RunKeeps(ws, es, i);
    var w, s := ws[i], ws[i].chains[c].session;
    QueuesInvOf(w);
    EndsIsCovered(w, s, call);
    DrainSettles(w, c, call.prompt);
    DrainSplits(w, s);
    var q, m := QueueOf(w.agent, s), MarkOf(w.agent, s);
    SplitDecides(w, Step(w, es[i]), s, Select(q, m, true, Keep), Select(q, m, true, Announce),
                 Select(q, m, true, Discard) + Select(q, m, true, Fold), call);
    OnlyThisCall(w, s, call);
    assert FoldedBy(w, es[i], call.prompt) <==> call in Select(q, m, true, Fold);
  }

  /** A Cancel or a clearing of the queue ends every queued prompt, with an event exactly if it
      has a RunID. */
  lemma ClearingEndsEach(ws: seq<World>, es: seq<Event>, i: nat, s: string, call: Call)
    requires IsRun(ws, es) && i < |es| && (es[i] == CancelFinish(s) || es[i] == ClearQueued(s))
    requires call in QueueOf(ws[i].agent, s)
    ensures call.prompt in ws[i + 1].places && ws[i + 1].places[call.prompt] == Ended(call)
    ensures QueueOf(ws[i + 1].agent, s) == []
  {
    hide Inv, AgentAfter;
    RunKeeps(ws, es, i);
    AgentStep(ws[i], es[i]);
    ClearsQueue(ws[i], es[i], s);
    QueuesInvOf(ws[i]);
    EndsIsCovered(ws[i], s, call);
    ClearSplits(ws[i], s);
    var q := QueueOf(ws[i].agent, s);
    SettleOne(ws[i], s, [], WithRunID(q), Filter(q, (c: Call) => c.runID == ""), call.prompt);
    hide QueuesInv, Splits;
  }

  lemma ClearsQueue(w: World, e: Event, s: string)
    requires Enabled(w, e) && (e == CancelFinish(s) || e == ClearQueued(s))
    ensures QueueOf(AgentAfter(w, e), s) == []
  {
  }

  // ---------------------------------------------------------------------- the handoff

  /** The calls of the queue that the mark does not end, in order. */
  ghost function Rest(w: World, s: string): seq<Call> {
    Filter(QueueOf(w.agent, s), (c: Call) => !(MarkOf(w.agent, s) > 0 && c.acceptSeq == 0))
  }

  lemma RestIsSurvivors(w: World, s: string)
    requires Inv(w)
    ensures Survivors(w.agent, s) == Rest(w, s)
  {
    var q, m := QueueOf(w.agent, s), MarkOf(w.agent, s);
    forall call | call in q ensures (Classify(call, m, false) == Keep) == !(m > 0 && call.acceptSeq == 0) {
      EndsIsCovered(w, s, call);
    }
    FilterSame(q, (c: Call) => Classify(c, m, false) == Keep, (c: Call) => !(m > 0 && c.acceptSeq == 0));
  }

  /** When a turn completes, every prompt queued behind it is decided: those that a mark covers
      end; of the rest, the first in the queue is handed off with a fresh reservation and the
      others keep waiting, in order. If nothing is left, the mark goes unless a reservation of
      the session is open. */
  lemma HandOffDecidesEach(ws: seq<World>, es: seq<Event>, i: nat, c: nat, call: Call)
    requires IsRun(ws, es) && i < |es| && es[i] == HandOff(c) && c in ws[i].chains
    ensures var s, w, w' := ws[i].chains[c].session, ws[i], ws[i + 1]; var rest := Rest(w, s);
      && (call in QueueOf(w.agent, s) && Ends(w, s, call) ==>
            call.prompt in w'.places && w'.places[call.prompt] == Ended(call))
      && (call in rest && call != rest[0] ==> call.prompt in w'.places && w'.places[call.prompt] == Waiting)
      && (rest != [] ==>
            && rest[0].prompt in w'.places && w'.places[rest[0].prompt] == Pending(c)
            && c in w'.chains && w'.chains[c].phase == HandedOff(rest[0].(accepted := Some(w.agent.gen + 1)))
            && w.agent.gen + 1 in w'.agent.open && w'.agent.open[w.agent.gen + 1] == s)
      && QueueOf(w'.agent, s) == (if rest == [] then [] else rest[1..])
      && MarkOf(w'.agent, s)
         == if rest == [] && OpenHandles(w.agent.open, s) == {} then 0 else MarkOf(w.agent, s)
  {
    hide Inv, StepHandOff, AgentAfter;
    RunKeeps(ws, es, i);
    var w, s := ws[i], ws[i].chains[c].session;
    RestIsSurvivors(w, s);
    AgentStep(w, es[i]);
    HandOffAgent(w, c);
    AgentInvOf(w);
    assert Lookup(w.agent.accepted, s, 0) == |OpenHandles(w.agent.open, s)|;
    if call in QueueOf(w.agent, s) { HandOffPlaces(w, c, call); }
    if Rest(w, s) != [] { HandOffPlaces(w, c, Rest(w, s)[0]); }
  }

  lemma HandOffAgent(w: World, c: nat)
    requires Enabled(w, HandOff(c))
    ensures var s := w.chains[c].session; var a, rest := AgentAfter(w, HandOff(c)), Survivors(w.agent, s);
      && QueueOf(a, s) == (if rest == [] then [] else rest[1..])
      && MarkOf(a, s) == (if rest == [] && Lookup(w.agent.accepted, s, 0) == 0 then 0 else MarkOf(w.agent, s))
      && (rest != [] ==> w.agent.gen + 1 in a.open && a.open[w.agent.gen + 1] == s)
  {
    hide Survivors;
  }

  /** Dropping the covered calls comes first. */
  lemma MidPlaces(w: World, c: nat, call: Call)
    requires c in w.chains && Inv(w) && call in QueueOf(w.agent, w.chains[c].session)
    ensures var s, mid := w.chains[c].session, MidHandOff(w, c);
      && call.prompt in mid.places
      && mid.places[call.prompt] == (if Ends(w, s, call) then Ended(call) else Waiting)
      && (call in Survivors(w.agent, s) <==> !Ends(w, s, call))
  {
    hide Inv, QueueBecomes;
    var s := w.chains[c].session;
    var q, m := QueueOf(w.agent, s), MarkOf(w.agent, s);
    var mid := MidHandOff(w, c);
    QueuesInvOf(w);
    EndsIsCovered(w, s, call);
    HandOffSplits(w, s, mid.agent);
    hide QueuesInv, Splits;
    SettleOne(w, s, Survivors(w.agent, s), Select(q, m, false, Announce), Select(q, m, false, Discard), call.prompt);
    SplitDecides(
      w, mid, s, Survivors(w.agent, s), Select(q, m, false, Announce), Select(q, m, false, Discard), call);
  }

  lemma IdlePlace(w: World, c: nat, p: nat)
    requires c in w.chains && w.chains[c].phase.Completing? && p in w.places && w.chains[c].phase.call.prompt != p
    ensures p in HandIdle(w, c).places && HandIdle(w, c).places[p] == w.places[p]
  {
    hide HandoffIdle;
  }

  lemma NextPlace(w: World, c: nat, p: nat)
    requires c in w.chains && w.chains[c].phase.Completing? && QueueOf(w.agent, w.chains[c].session) != []
    requires p in w.places && w.chains[c].phase.call.prompt != p
    ensures var w' := HandNext(w, c); var first := QueueOf(w.agent, w.chains[c].session)[0];
      && p in w'.places && w'.places[p] == (if p == first.prompt then Pending(c) else w.places[p])
      && c in w'.chains && w'.chains[c].phase == HandedOff(first.(accepted := Some(w.agent.gen + 1)))
  {
    hide Owes, BeginAccepted, SetQueue;
  }

  lemma TurnIsRunning(w: World, c: nat)
    requires Inv(w) && c in w.chains && w.chains[c].phase.Completing?
    ensures w.chains[c].phase.call.prompt in w.places && w.places[w.chains[c].phase.call.prompt] == Running(c)
  {
    assert Places(w, c);
  }

  lemma HandOffPlaces(w: World, c: nat, call: Call)
    requires Enabled(w, HandOff(c)) && Inv(w) && call in QueueOf(w.agent, w.chains[c].session)
    ensures var s, w' := w.chains[c].session, Step(w, HandOff(c)); var rest := Survivors(w.agent, s);
      && (!Ends(w, s, call) <==> call in rest)
      && call.prompt in w'.places
      && w'.places[call.prompt]
         == (if Ends(w, s, call) then Ended(call) else if call == rest[0] then Pending(c) else Waiting)
      && (rest != [] ==> c in w'.chains && w'.chains[c].phase == HandedOff(NextCall(w.agent, s)))
  {
    hide Inv, MidHandOff, StepHandOff, HandIdle, HandNext, Survivors;
    var s, mid := w.chains[c].session, MidHandOff(w, c);
    MidPlaces(w, c, call);
    TurnIsRunning(w, c);
    QueuesInvOf(w);
    EndsIsCovered(w, s, call);
    if Survivors(w.agent, s) == [] {
      HandOffIsIdle(w, c);
      IdlePlace(mid, c, call.prompt);
    } else {
      HandOffIsNext(w, c);
      MidQueue(w, c);
      NextPlace(mid, c, call.prompt);
      SurvivorsWereQueued(w.agent, s);
      assert Survivors(w.agent, s)[0] in QueueOf(w.agent, s);
      OnlyThisCall(w, s, call);
    }
  }

  lemma MidQueue(w: World, c: nat)
    requires c in w.chains
    ensures QueueOf(MidHandOff(w, c).agent, w.chains[c].session) == Survivors(w.agent, w.chains[c].session)
    ensures MidHandOff(w, c).agent.gen == w.agent.gen
  {
    hide Survivors, EventsFor, Prompts;
  }

  // --------------------------------------------------------------- the order of a queue

  ghost predicate HasAt(q: seq<Call>, i: nat, p: nat) { i < |q| && q[i].prompt == p }

  /** In the queue, `p` stands before `q`. */
  ghost predicate Ahead(calls: seq<Call>, p: nat, q: nat) {
    exists i, j :: i < j && HasAt(calls, i, p) && HasAt(calls, j, q)
  }

  lemma {:induction false} FilterOrder(calls: seq<Call>, keep: Call -> bool, i: nat, j: nat) returns (k: nat, l: nat)
    requires i < j < |calls| && keep(calls[i]) && keep(calls[j])
    ensures k < l < |Filter(calls, keep)| && Filter(calls, keep)[k] == calls[i] && Filter(calls, keep)[l] == calls[j]
  {
    var kept := Filter(calls[1..], keep);
    FilterHead(calls, keep);
    hide Filter;
    if i == 0 {
      assert calls[j] == calls[1..][j - 1];
      assert Filter(calls, keep) == [calls[0]] + kept;
      var m :| 0 <= m < |kept| && kept[m] == calls[j];
      k, l := 0, m + 1;
    } else {
      k, l := FilterOrder(calls[1..], keep, i - 1, j - 1);
      if keep(calls[0]) {
        assert Filter(calls, keep) == [calls[0]] + kept;
        k, l := k + 1, l + 1;
      } else {
        assert Filter(calls, keep) == kept;
      }
    }
  }

  lemma FilterHead(calls: seq<Call>, keep: Call -> bool)
    requires calls != []
    ensures Filter(calls, keep) == (if keep(calls[0]) then [calls[0]] else []) + Filter(calls[1..], keep)
  {
  }

  lemma OnePosition(calls: seq<Call>, call: Call, i: nat, p: nat)
    requires DistinctPrompts(calls) && HasAt(calls, i, p) && call in calls && call.prompt == p
    ensures call == calls[i]
  {
    var k :| 0 <= k < |calls| && calls[k] == call;
  }

  /** What is left of a queue, possibly without its first call, is still in order. */
  lemma FilteredAhead(calls: seq<Call>, keep: Call -> bool, rest: seq<Call>, p: nat, q: nat, k: nat, l: nat)
    requires DistinctPrompts(calls) && DistinctPrompts(Filter(calls, keep)) && Ahead(calls, p, q)
    requires rest == Filter(calls, keep) || (Filter(calls, keep) != [] && rest == Filter(calls, keep)[1..])
    requires HasAt(rest, k, p) && HasAt(rest, l, q)
    ensures Ahead(rest, p, q)
  {
    hide Filter;
    var kept := Filter(calls, keep);
    var i, j :| i < j && HasAt(calls, i, p) && HasAt(calls, j, q);
    assert rest[k] in kept && rest[l] in kept;
    OnePosition(calls, rest[k], i, p);
    OnePosition(calls, rest[l], j, q);
    var m, n := FilterOrder(calls, keep, i, j);
    var d := |kept| - |rest|;
    assert kept[k + d] == rest[k] && kept[l + d] == rest[l];
    assert m == k + d && n == l + d;
  }

  /** A section on another session, or on nothing of the queue. */
  ghost predicate LeavesQueue(w: World, e: Event, s: string)
    requires Enabled(w, e)
  {
    SessionOf(w, e) != s || !(e.Enter? || e.DrainStep? || e.HandOff? || e.CancelFinish? || e.ClearQueued?)
  }

  lemma QueueLeft(w: World, e: Event, s: string)
    requires Enabled(w, e) && Inv(w) && HandlesOwned(w) && LeavesQueue(w, e, s)
    ensures QueueOf(AgentAfter(w, e), s) == QueueOf(w.agent, s)
  {
    hide Inv;
    if SessionOf(w, e) != s {
      hide AgentAfter, HandlesOwned;
      AgentElsewhere(w, e, s);
    }
  }

  lemma QueueEntered(w: World, c: nat, persistFails: bool)
    requires Enabled(w, Enter(c, persistFails)) && Inv(w)
    ensures var s, call := w.chains[c].session, w.chains[c].phase.call; var q := QueueOf(w.agent, s);
      var q' := QueueOf(AgentAfter(w, Enter(c, persistFails)), s);
      q' == q || q' == q + [QueuedForm(call)]
  {
    hide Inv, EnterRun;
    PendingCall(w, c);
    EntryAgent(w.agent, w.chains[c].phase.call, |w.runOwner|);
  }

  lemma QueueDrained(w: World, c: nat)
    requires Enabled(w, DrainStep(c))
    ensures var s := w.chains[c].session;
      QueueOf(AgentAfter(w, DrainStep(c)), s) == Select(QueueOf(w.agent, s), MarkOf(w.agent, s), true, Keep)
  {
  }

  lemma DistinctAfter(w: World, s: string)
    requires QueuesInv(w)
    ensures var q, m := QueueOf(w.agent, s), MarkOf(w.agent, s);
      && DistinctPrompts(q) && DistinctPrompts(Select(q, m, true, Keep)) && DistinctPrompts(Survivors(w.agent, s))
  {
    var q, m := QueueOf(w.agent, s), MarkOf(w.agent, s);
    FilterKeepsDistinct(q, (c: Call) => Classify(c, m, true) == Keep);
    FilterKeepsDistinct(q, (c: Call) => Classify(c, m, false) == Keep);
  }

  lemma WaitsAt(w: World, s: string, p: nat) returns (k: nat)
    requires Inv(w) && p in w.places && p in w.chains && w.places[p] == Waiting && w.chains[p].session == s
    ensures HasAt(QueueOf(w.agent, s), k, p)
  {
    PlaceIsReal(w, p);
    k :| QueuedAt(w, s, k, p);
  }

  /** A step keeps the order of two prompts that wait on both sides of it. */
  lemma AheadStays(w: World, e: Event, s: string, p: nat, q: nat)
    requires Enabled(w, e) && Inv(w) && HandlesOwned(w) && Ahead(QueueOf(w.agent, s), p, q)
    requires p in w.chains && q in w.chains && w.chains[p].session == s == w.chains[q].session
    requires var w' := Step(w, e); p in w'.places && q in w'.places && w'.places[p] == Waiting == w'.places[q]
    ensures Ahead(QueueOf(Step(w, e).agent, s), p, q)
  {
    hide Inv, Step, AgentAfter, HandlesOwned, Ahead, Survivors, Select, QueuesInv, DistinctPrompts;
    var w' := Step(w, e);
    StepKeeps(w, e);
    SessionStays(w, e, p);
    SessionStays(w, e, q);
    var k := WaitsAt(w', s, p);
    var l := WaitsAt(w', s, q);
    AgentStep(w, e);
    QueuesInvOf(w);
    DistinctAfter(w, s);
    if LeavesQueue(w, e, s) {
      QueueLeft(w, e, s);
    } else {
      match e
      case Enter(c, persistFails) =>
        QueueEntered(w, c, persistFails);
        AheadOfMore(QueueOf(w.agent, s), QueueOf(w'.agent, s), p, q);
      case DrainStep(c) =>
        QueueDrained(w, c);
        DrainedAhead(w, s, p, q, k, l);
      case HandOff(c) =>
        HandOffAgent(w, c);
        HandedAhead(w, s, QueueOf(w'.agent, s), p, q, k, l);
      case _ => ClearsQueue(w, e, s);
    }
  }

  lemma AheadOfMore(calls: seq<Call>, more: seq<Call>, p: nat, q: nat)
    requires Ahead(calls, p, q) && calls <= more
    ensures Ahead(more, p, q)
  {
    var i, j :| i < j && HasAt(calls, i, p) && HasAt(calls, j, q);
    assert HasAt(more, i, p) && HasAt(more, j, q);
  }

  lemma DrainedAhead(w: World, s: string, p: nat, q: nat, k: nat, l: nat)
    requires var calls, m := QueueOf(w.agent, s), MarkOf(w.agent, s); var rest := Select(calls, m, true, Keep);
      && DistinctPrompts(calls) && DistinctPrompts(rest) && Ahead(calls, p, q)
      && HasAt(rest, k, p) && HasAt(rest, l, q)
    ensures Ahead(Select(QueueOf(w.agent, s), MarkOf(w.agent, s), true, Keep), p, q)
  {
    var calls, m := QueueOf(w.agent, s), MarkOf(w.agent, s);
    hide Ahead;
    FilteredAhead(calls, (c: Call) => Classify(c, m, true) == Keep, Select(calls, m, true, Keep), p, q, k, l);
  }

  lemma HandedAhead(w: World, s: string, rest: seq<Call>, p: nat, q: nat, k: nat, l: nat)
    requires var calls, kept := QueueOf(w.agent, s), Survivors(w.agent, s);
      && DistinctPrompts(calls) && DistinctPrompts(kept) && Ahead(calls, p, q)
      && rest == (if kept == [] then [] else kept[1..]) && HasAt(rest, k, p) && HasAt(rest, l, q)
    ensures Ahead(rest, p, q)
  {
    var calls, m := QueueOf(w.agent, s), MarkOf(w.agent, s);
    hide Ahead;
    FilteredAhead(calls, (c: Call) => Classify(c, m, false) == Keep, rest, p, q, k, l);
  }

  lemma JoinsBehind(w: World, c: nat, persistFails: bool, s: string, p: nat, q: nat)
    requires Enabled(w, Enter(c, persistFails)) && Inv(w) && p in w.chains && p in w.places && q in w.chains
    requires w.places[p] == Waiting && w.chains[p].session == s == w.chains[q].session
    requires q in w.places && w.places[q] != Waiting
    requires var w' := Step(w, Enter(c, persistFails)); q in w'.places && w'.places[q] == Waiting
    ensures Ahead(QueueOf(Step(w, Enter(c, persistFails)).agent, s), p, q)
  {
    hide Inv, Step, AgentAfter, EnterRun;
    var e := Enter(c, persistFails);
    var w' := Step(w, e);
    StepKeeps(w, e);
    AgentStep(w, e);
    QueueEntered(w, c, persistFails);
    EnteredIsOwn(w, c, persistFails, q);
    SessionStays(w, e, q);
    var calls := QueueOf(w.agent, s);
    var k := WaitsAt(w, s, p);
    var l := WaitsAt(w', s, q);
    if HasAt(calls, l, q) { QueuedAboveMark(w, s, calls[l]); }
    assert HasAt(QueueOf(w'.agent, s), k, p);
  }

  /** The prompt that starts to wait is the one that entered. */
  lemma EnteredIsOwn(w: World, c: nat, persistFails: bool, q: nat)
    requires Enabled(w, Enter(c, persistFails)) && Inv(w) && q in w.chains && q in w.places && w.places[q] != Waiting
    requires var w' := Step(w, Enter(c, persistFails)); q in w'.places && w'.places[q] == Waiting
    ensures w.chains[c].phase.call.prompt == q && w.chains[q].session == w.chains[c].session
  {
    hide EnterRun, Decide, AgentInv, CancelsInv, RunsInv, QueuesInv, TerminalInv;
    EnterEffect(w, c, persistFails);
    assert CarriesCall(w, c);
  }

  /** Queued prompts run in the order in which they were queued: if `q` joins the queue of its
      session while `p` waits in it, then as long as both wait, `p` stands before `q`, and `q` is
      not handed off to a turn unless `p` ends in the same section. */
  lemma {:induction false} NoOvertaking(ws: seq<World>, es: seq<Event>, i: nat, k: nat, s: string, p: nat, q: nat)
    requires IsRun(ws, es) && i < k < |es| && es[i].Enter? && p in ws[i].chains && q in ws[i].chains
    requires ws[i].chains[p].session == s == ws[i].chains[q].session
    requires p in ws[i].places && ws[i].places[p] == Waiting && q in ws[i].places && ws[i].places[q] != Waiting
    requires forall m | i < m <= k ::
      p in ws[m].places && q in ws[m].places && ws[m].places[p] == Waiting == ws[m].places[q]
    ensures p in ws[k].chains && q in ws[k].chains && ws[k].chains[p].session == s == ws[k].chains[q].session
    ensures Ahead(QueueOf(ws[k].agent, s), p, q)
    ensures q in ws[k + 1].places && ws[k + 1].places[q].Pending? ==>
      p in ws[k + 1].places && ws[k + 1].places[p].Finished?
    decreases k
  {
    hide Inv, Step, Enabled, Ahead, HandlesOwned;
    RunKeeps(ws, es, k - 1);
    RunKeeps(ws, es, k);
    if k == i + 1 {
      JoinsBehind(ws[i], es[i].chain, es[i].persistFails, s, p, q);
    } else {
      NoOvertaking(ws, es, i, k - 1, s, p, q);
      HandlesAreOwned(ws, es, k - 1);
      AheadStays(ws[k - 1], es[k - 1], s, p, q);
    }
    SessionStays(ws[k - 1], es[k - 1], p);
    SessionStays(ws[k - 1], es[k - 1], q);
    if q in ws[k + 1].places && ws[k + 1].places[q].Pending? { FirstGoes(ws[k], es[k], s, p, q); }
  }

  /** Who is handed off stands first among those that do not end. */
  lemma FirstGoes(w: World, e: Event, s: string, p: nat, q: nat)
    requires Enabled(w, e) && Inv(w) && Ahead(QueueOf(w.agent, s), p, q) && p in w.places && q in w.places
    requires q in w.chains && w.places[q] == Waiting && q in Step(w, e).places && Step(w, e).places[q].Pending?
    ensures p in Step(w, e).places && Step(w, e).places[p].Finished?
  {
    hide Inv, Step, Survivors, QueuesInv, DistinctPrompts, Filter;
    HandsOffOwn(w, e, q);
    var c, calls := e.chain, QueueOf(w.agent, s);
    var i: nat, j: nat :| i < j && HasAt(calls, i, p) && HasAt(calls, j, q);
    QueuedAboveMark(w, s, calls[j]);
    HandOffPlaces(w, c, calls[i]);
    HandOffPlaces(w, c, calls[j]);
    QueuesInvOf(w);
    EarlierEnds(w, s, i, j);
  }

  lemma NotTwice(calls: seq<Call>, l: nat)
    requires DistinctPrompts(calls) && l < |calls| && calls[0] == calls[l]
    ensures l == 0
  {
  }

  lemma EarlierEnds(w: World, s: string, i: nat, j: nat)
    requires QueuesInv(w) && i < j < |QueueOf(w.agent, s)| && QueueOf(w.agent, s)[j] in Survivors(w.agent, s)
    requires QueueOf(w.agent, s)[j] == Survivors(w.agent, s)[0]
    ensures QueueOf(w.agent, s)[i] !in Survivors(w.agent, s)
  {
    hide QueuesInv, DistinctPrompts, Survivors;
    if QueueOf(w.agent, s)[i] in Survivors(w.agent, s) {
      var k, l := SurvivorOrder(w, s, i, j);
      DistinctAfter(w, s);
      NotTwice(Survivors(w.agent, s), l);
      assert false;
    }
  }

  lemma SurvivorOrder(w: World, s: string, i: nat, j: nat) returns (k: nat, l: nat)
    requires i < j < |QueueOf(w.agent, s)|
    requires QueueOf(w.agent, s)[i] in Survivors(w.agent, s) && QueueOf(w.agent, s)[j] in Survivors(w.agent, s)
    ensures k < l < |Survivors(w.agent, s)|
    ensures Survivors(w.agent, s)[k] == QueueOf(w.agent, s)[i] && Survivors(w.agent, s)[l] == QueueOf(w.agent, s)[j]
  {
    hide Filter;
    var m := MarkOf(w.agent, s);
    k, l := FilterOrder(QueueOf(w.agent, s), (call: Call) => Classify(call, m, false) == Keep, i, j);
  }

  /** A waiting prompt that becomes pending is handed off within its session. */
  lemma HandsOffOwn(w: World, e: Event, q: nat)
    requires Enabled(w, e) && Inv(w) && q in w.places && q in w.chains && w.places[q] == Waiting
    requires q in Step(w, e).places && Step(w, e).places[q].Pending?
    ensures e.HandOff? && e.chain in w.chains && w.chains[q].session == w.chains[e.chain].session
  {
    hide Inv, Step;
    StepMoves(w, e, q);
    if w.chains[q].session != SessionOf(w, e) { StepUnmoved(w, e, q); }
  }
}
