/** What every lock section keeps about the agent's own fields. */
module AgentInvariants {
  import opened Common
  import opened AgentState

  ghost function OpenHandles(open: map<nat, string>, s: string): set<nat> {
    set h | h in open && open[h] == s
  }

  /** acceptedRuns holds, for every session, the number of its open handles. */
  ghost predicate Counted(accepted: map<string, nat>, open: map<nat, string>) {
    && (forall s | s in accepted :: accepted[s] > 0)
    && (forall s :: Lookup(accepted, s, 0) == |OpenHandles(open, s)|)
  }

  lemma OpenOne(open: map<nat, string>, h: nat, s: string, t: string)
    requires h !in open
    ensures OpenHandles(open[h := s], t) == OpenHandles(open, t) + (if t == s then {h} else {})
    ensures |OpenHandles(open[h := s], t)| == |OpenHandles(open, t)| + (if t == s then 1 else 0)
  {
  }

  lemma CloseOne(open: map<nat, string>, h: nat, t: string)
    requires h in open
    ensures OpenHandles(open - {h}, t) == OpenHandles(open, t) - {h}
    ensures |OpenHandles(open - {h}, t)| == |OpenHandles(open, t)| - (if t == open[h] then 1 else 0)
  {
  }

  lemma CountedAfterBegin(a: Agent, s: string)
    requires Counted(a.accepted, a.open) && a.gen + 1 !in a.open
    ensures var b := BeginAccepted(a, s); Counted(b.accepted, b.open)
  {
    var b := BeginAccepted(a, s);
    forall t ensures Lookup(b.accepted, t, 0) == |OpenHandles(b.open, t)| {
      OpenOne(a.open, a.gen + 1, s, t);
    }
  }

  lemma CountedAfterClose(a: Agent, h: nat)
    requires Counted(a.accepted, a.open)
    ensures var b := CloseHandle(a, h); Counted(b.accepted, b.open)
  {
    if h in a.open {
      CountedAfterEnd(a.accepted, a.open, h, a.open[h]);
    }
  }

  lemma CountedAfterEnd(accepted: map<string, nat>, open: map<nat, string>, h: nat, s: string)
    requires Counted(accepted, open) && h in open && open[h] == s
    ensures s in accepted
    ensures Counted(if accepted[s] <= 1 then accepted - {s} else accepted[s := accepted[s] - 1], open - {h})
  {
    CloseOne(open, h, s);
    assert h in OpenHandles(open, s);
    assert Lookup(accepted, s, 0) == |OpenHandles(open, s)|;
    var after := if accepted[s] <= 1 then accepted - {s} else accepted[s := accepted[s] - 1];
    forall t ensures Lookup(after, t, 0) == |OpenHandles(open - {h}, t)| {
      assert Lookup(accepted, t, 0) == |OpenHandles(open, t)|;
      CloseOne(open, h, t);
    }
  }

  /** A queued call lost its hook and handle, and no mark covers it if it was tracked. */
  ghost predicate WellQueued(a: Agent, s: string, c: Call) {
    && c.session == s && !c.hooked && c.accepted == None
    && c.acceptSeq <= a.gen
    && (c.acceptSeq == 0 || MarkOf(a, s) < c.acceptSeq)
  }

  /** acceptedRuns counts the open handles; sequences and marks stay below the generator. */
  ghost predicate AgentInv(a: Agent) {
    && (forall h | h in a.open :: 0 < h <= a.gen)
    && Counted(a.accepted, a.open)
    && (forall s | s in a.mark :: 0 < a.mark[s] <= a.gen)
    && (forall s, c | s in a.queue && c in a.queue[s] :: WellQueued(a, s, c))
  }

  lemma BeginAcceptedKeeps(a: Agent, s: string)
    requires AgentInv(a)
    ensures AgentInv(BeginAccepted(a, s))
    ensures a.gen + 1 !in a.open
  {
    var b := BeginAccepted(a, s);
    CountedAfterBegin(a, s);
    assert forall t, c | t in b.queue && c in b.queue[t] :: WellQueued(a, t, c) && WellQueued(b, t, c);
  }

  /** Closing a handle clears at most the mark of its own session, and only when no other
      handle of that session is open. */
  lemma CloseMarks(a: Agent, h: nat, s: string)
    requires AgentInv(a)
    ensures var b := CloseHandle(a, h);
      && (MarkOf(b, s) == MarkOf(a, s) || MarkOf(b, s) == 0)
      && (OpenHandles(b.open, s) != {} || h !in a.open || a.open[h] != s ==> MarkOf(b, s) == MarkOf(a, s))
  {
    hide WellQueued;
    if h !in a.open {
      assert a.open - {h} == a.open;
    } else if a.open[h] == s {
      assert Lookup(a.accepted, s, 0) == |OpenHandles(a.open, s)|;
      CloseOne(a.open, h, s);
    }
  }

  /** Closing a handle touches nothing but the reservation count and, when the session's
      last open handle goes, its mark: a mark stays while any handle of the session is open. */
  lemma CloseHandleKeeps(a: Agent, h: nat)
    requires AgentInv(a)
    ensures var b := CloseHandle(a, h);
      && AgentInv(b)
      && b.open == a.open - {h}
      && b.queue == a.queue && b.active == a.active && b.gen == a.gen && b.stopped == a.stopped
      && (forall s | OpenHandles(b.open, s) != {} :: MarkOf(b, s) == MarkOf(a, s))
      && (forall s :: MarkOf(b, s) == MarkOf(a, s) || MarkOf(b, s) == 0)
      && (forall s | h !in a.open || a.open[h] != s :: MarkOf(b, s) == MarkOf(a, s))
  {
    var b := CloseHandle(a, h);
    assert h !in a.open ==> a.open - {h} == a.open;
    forall s ensures MarkOf(b, s) == MarkOf(a, s) || MarkOf(b, s) == 0
      ensures OpenHandles(b.open, s) != {} || h !in a.open || a.open[h] != s ==> MarkOf(b, s) == MarkOf(a, s) {
      CloseMarks(a, h, s);
    }
    CountedAfterClose(a, h);
    hide Counted, MarkOf;
    forall t, c | t in b.queue && c in b.queue[t] ensures WellQueued(b, t, c) {
      assert WellQueued(a, t, c);
    }
  }

  lemma EnqueueKeeps(a: Agent, call: Call)
    requires AgentInv(a)
    requires call.accepted.Some? ==> MarkOf(a, call.session) < call.accepted.value <= a.gen
    requires call.accepted.None? ==> call.acceptSeq == 0
    ensures AgentInv(Enqueue(a, call))
  {
  }

  /** Replacing a session's queue by some of its calls, and changing `active` and
      `stopped`, keeps the invariant. */
  lemma ShrinkKeeps(a: Agent, b: Agent)
    requires AgentInv(a)
    requires b.accepted == a.accepted && b.mark == a.mark && b.gen == a.gen && b.open == a.open
    requires forall s, c | s in b.queue && c in b.queue[s] :: s in a.queue && c in a.queue[s]
    ensures AgentInv(b)
  {
  }

  lemma DropMarkKeeps(a: Agent, s: string)
    requires AgentInv(a)
    ensures AgentInv(a.(mark := a.mark - {s}))
  {
  }

  /** The dispatch section of Run. */
  lemma EnterRunKeeps(a: Agent, call: Call, run: nat)
    requires AgentInv(a)
    requires call.accepted.Some? ==> 0 < call.accepted.value <= a.gen
    requires call.accepted.None? ==> call.acceptSeq == 0
    ensures AgentInv(EnterRun(a, call, run))
  {
    match Decide(a, call)
    case CancelOnEntry =>
      CloseHandleKeeps(a, call.accepted.value);
    case JoinQueue =>
      EnqueueKeeps(a, call);
      if call.accepted.Some? { CloseHandleKeeps(Enqueue(a, call), call.accepted.value); }
    case BecomeActive =>
      var b := a.(active := a.active[call.session := run]);
      ShrinkKeeps(a, b);
      if call.accepted.Some? { CloseHandleKeeps(b, call.accepted.value); }
  }

  lemma DrainKeeps(a: Agent, s: string)
    requires AgentInv(a)
    ensures AgentInv(Drain(a, s))
  {
  }

  lemma HandoffKeeps(a: Agent, s: string)
    requires AgentInv(a)
    ensures AgentInv(HandoffIdle(a, s))
    ensures Survivors(a, s) != [] ==> AgentInv(HandoffNext(a, s))
  {
    ShrinkKeeps(a, DropQueue(a, s));
    DropMarkKeeps(DropQueue(a, s), s);
    if Survivors(a, s) != [] {
      var b := SetQueue(a, s, Survivors(a, s)[1..]);
      ShrinkKeeps(a, b);
      BeginAcceptedKeeps(b, s);
    }
  }

  /** Cancel's second half: it raises the mark and empties the queue in one section, so
      no queued call is ever left at or below the mark. */
  lemma RaiseAndClearKeeps(a: Agent, s: string, read: CancelRead)
    requires AgentInv(a) && read.gen <= a.gen
    requires read.inFlight ==> read.gen > 0
    ensures AgentInv(RaiseAndClear(a, s, read))
    ensures QueueOf(RaiseAndClear(a, s, read), s) == []
  {
  }

  lemma ClearQueueKeeps(a: Agent, s: string)
    requires AgentInv(a)
    ensures AgentInv(ClearQueue(a, s)) && QueueOf(ClearQueue(a, s), s) == []
  {
  }
}
