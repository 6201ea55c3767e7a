/** sessionAgent's dispatch fields and lock sections as an object. Every method is proved
    against the function of AgentState that the protocol is built on. */
module SessionAgentClass {
  import opened Common
  import S = AgentState
  import opened AgentState

  /** The reservation handed out by BeginAccepted. */
  class AcceptedRun {
    const agent: SessionAgent
    const sessionID: string
    const seqNo: nat
    var done: bool

    constructor (agent: SessionAgent, sessionID: string, seqNo: nat)
      ensures this.agent == agent && this.sessionID == sessionID && this.seqNo == seqNo && !done
    {
      this.agent, this.sessionID, this.seqNo, this.done := agent, sessionID, seqNo, false;
    }

    /** `done` says whether the agent still counts this handle. */
    ghost predicate Valid()
      reads this, agent
    {
      && seqNo <= agent.acceptSeqGen
      && (done <==> seqNo !in agent.open)
      && (!done ==> agent.open[seqNo] == sessionID)
    }

    /** Releases the reservation; only the first call has an effect. */
    method Close()
      requires Valid()
      modifies this, agent
      ensures Valid() && done
      ensures agent.State() == CloseHandle(old(agent.State()), seqNo)
      ensures agent.nextRun == old(agent.nextRun)
      ensures old(done) ==> agent.acceptedRuns == old(agent.acceptedRuns) && agent.cancelMark == old(agent.cancelMark)
      ensures !old(done) ==> agent.OneFewer(sessionID, old(agent.acceptedRuns), old(agent.cancelMark))
    {
      if done { return; }
      done := true;
      agent.EndAccepted(sessionID, seqNo);
    }
  }

  class SessionAgent {
    var messageQueue: map<string, seq<Call>>
    var activeRequests: map<string, nat>
    var acceptedRuns: map<string, nat>
    var cancelMark: map<string, nat>
    var acceptSeqGen: nat
    var stoppedRuns: set<nat>
    var nextRun: nat  // the identity of the next activeCancel that is allocated
    ghost var open: map<nat, string>

    ghost function State(): Agent
      reads this
    {
      Agent(messageQueue, activeRequests, acceptedRuns, cancelMark, acceptSeqGen, open, stoppedRuns)
    }

    /** One reservation of `s` is gone since the two maps were these; the last one took the
        session's mark with it, and nothing else changed. */
    ghost predicate OneFewer(s: string, accepted: map<string, nat>, mark: map<string, nat>)
      reads this
    {
      && (forall t | t != s :: (t in acceptedRuns <==> t in accepted) && (t in cancelMark <==> t in mark))
      && (forall t | t != s && t in accepted :: acceptedRuns[t] == accepted[t])
      && (forall t | t != s && t in mark :: cancelMark[t] == mark[t])
      && (if s in accepted && accepted[s] > 1
          then s in acceptedRuns && acceptedRuns[s] == accepted[s] - 1 && (s in mark <==> s in cancelMark)
               && (s in mark ==> cancelMark[s] == mark[s])
          else s !in acceptedRuns && s !in cancelMark)
    }

    /** A cancel of `s` covers the sequence: at most the mark, or untracked. */
    ghost predicate Covers(s: string, seqNo: nat)
      reads this
    {
      s in cancelMark && cancelMark[s] > 0 && (seqNo == 0 || seqNo <= cancelMark[s])
    }

    constructor ()
      ensures State() == NEW_AGENT && nextRun == 0
    {
      messageQueue, activeRequests, acceptedRuns, cancelMark := map[], map[], map[], map[];
      acceptSeqGen, stoppedRuns, nextRun, open := 0, {}, 0, map[];
    }

    method BeginAccepted(s: string) returns (r: AcceptedRun)
      modifies this
      ensures State() == S.BeginAccepted(old(State()), s)
      ensures s in acceptedRuns && acceptedRuns[s] == (if s in old(acceptedRuns) then old(acceptedRuns)[s] else 0) + 1
      ensures forall t | t != s :: Lookup(acceptedRuns, t, 0) == Lookup(old(acceptedRuns), t, 0)
      ensures acceptSeqGen == old(acceptSeqGen) + 1 && cancelMark == old(cancelMark)
      ensures fresh(r) && r.agent == this && r.sessionID == s && r.seqNo == acceptSeqGen && r.Valid() && !r.done
      ensures nextRun == old(nextRun)
    {
      var count := Lookup(acceptedRuns, s, 0);
      acceptedRuns := acceptedRuns[s := count + 1];
      acceptSeqGen := acceptSeqGen + 1;
      open := open[acceptSeqGen := s];
      r := new AcceptedRun(this, s, acceptSeqGen);
    }

    /** Called through AcceptedRun.Close only, with the handle that is being closed. */
    method EndAccepted(s: string, ghost handle: nat)
      requires handle in open && open[handle] == s
      modifies this
      ensures State() == CloseHandle(old(State()), handle)
      ensures OneFewer(s, old(acceptedRuns), old(cancelMark))
      ensures nextRun == old(nextRun)
    {
      open := open - {handle};
      if s !in acceptedRuns || acceptedRuns[s] <= 1 {
        acceptedRuns := acceptedRuns - {s};
        cancelMark := cancelMark - {s};
        return;
      }
      acceptedRuns := acceptedRuns[s := acceptedRuns[s] - 1];
    }

    method CanceledBySeq(s: string, seqNo: nat) returns (covered: bool)
      ensures covered == CoveredBy(MarkOf(State(), s), seqNo) == Covers(s, seqNo)
    {
      if s !in cancelMark || cancelMark[s] == 0 { return false; }
      return seqNo == 0 || seqNo <= cancelMark[s];
    }

    method EnqueueCall(call: Call)
      modifies this
      ensures State() == Enqueue(old(State()), call)
      ensures call.session in messageQueue
      ensures messageQueue[call.session] == old(if call.session in messageQueue then messageQueue[call.session] else [])
        + [Call(call.prompt, call.session, call.runID, false, None,
                if call.accepted.Some? then call.accepted.value else call.acceptSeq)]
      ensures forall t | t != call.session :: Lookup(messageQueue, t, []) == Lookup(old(messageQueue), t, [])
      ensures nextRun == old(nextRun)
    {
      var existing := if call.session in messageQueue then messageQueue[call.session] else [];
      var queued := call;
      if call.accepted.Some? {
        queued := queued.(acceptSeq := call.accepted.value);
      }
      queued := queued.(hooked := false, accepted := None);
      messageQueue := messageQueue[call.session := existing + [queued]];
    }

    /** The dispatch section of Run. `handle` is the AcceptedRun that came with the call. */
    method EnterRun(call: Call, handle: AcceptedRun?) returns (decision: Decision, run: nat)
      requires handle == null <==> call.accepted.None?
      requires handle != null ==> handle.agent == this && handle.Valid() && call.accepted == Some(handle.seqNo)
      modifies this, handle
      ensures decision == Decide(old(State()), call)
      ensures run == old(nextRun)
      ensures State() == S.EnterRun(old(State()), call, run)
      ensures handle != null ==> handle.Valid() && handle.done
      ensures var covered := handle != null && old(Covers(call.session, handle.seqNo));
        && (decision == CancelOnEntry <==> covered)
        && (decision == JoinQueue <==> !covered && call.session in old(activeRequests))
        && (decision == BecomeActive <==> !covered && call.session !in old(activeRequests))
      ensures activeRequests
           == if decision == BecomeActive then old(activeRequests)[call.session := run] else old(activeRequests)
      ensures decision != JoinQueue ==> messageQueue == old(messageQueue)
      ensures decision == JoinQueue ==>
        && call.session in messageQueue && |messageQueue[call.session]| > 0
        && messageQueue[call.session][..|messageQueue[call.session]| - 1] == Lookup(old(messageQueue), call.session, [])
        && messageQueue[call.session][|messageQueue[call.session]| - 1].prompt == call.prompt
      ensures forall t | t != call.session :: Lookup(messageQueue, t, []) == Lookup(old(messageQueue), t, [])
      ensures stoppedRuns == old(stoppedRuns)
    {
      run := nextRun;
      if handle != null {
        var covered := CanceledBySeq(call.session, handle.seqNo);
        if covered {
          handle.Close();
          return CancelOnEntry, run;
        }
      }
      if call.session in activeRequests {
        EnqueueCall(call);
        if handle != null { handle.Close(); }
        return JoinQueue, run;
      }
      nextRun := nextRun + 1;
      activeRequests := activeRequests[call.session := run];
      if handle != null { handle.Close(); }
      return BecomeActive, run;
    }

    method CompareAndDelete(s: string, run: nat) returns (deleted: bool)
      modifies this
      ensures State() == S.CompareAndDelete(old(State()), s, run)
      ensures deleted <==> s in old(activeRequests) && old(activeRequests)[s] == run
      ensures nextRun == old(nextRun)
    {
      if s !in activeRequests { return false; }
      if activeRequests[s] != run { return false; }
      activeRequests := activeRequests - {s};
      return true;
    }

    /** The explicit deletion when a turn completes. On the caller's own entry it does what
        CompareAndDelete does, and a later CompareAndDelete finds nothing to remove. */
    method CompletionDel(s: string)
      modifies this
      ensures State() == DeleteActive(old(State()), s)
      ensures forall run :: (s in old(activeRequests) ==> old(activeRequests)[s] == run) ==>
        State() == S.CompareAndDelete(old(State()), s, run)
      ensures forall run :: S.CompareAndDelete(State(), s, run) == State()
      ensures nextRun == old(nextRun)
    {
      activeRequests := activeRequests - {s};
    }

    /** Partitions the queue for a streaming step: what to fold, and what was dropped
        although a caller waits for it; the rest stays queued in order. */
    method DrainQueueForStep(s: string) returns (fold: seq<Call>, canceledWithRunID: seq<Call>)
      modifies this
      ensures State() == Drain(old(State()), s)
      ensures fold == Select(QueueOf(old(State()), s), MarkOf(old(State()), s), true, Fold)
      ensures canceledWithRunID == Select(QueueOf(old(State()), s), MarkOf(old(State()), s), true, Announce)
      ensures nextRun == old(nextRun)
      ensures var q, m := Lookup(old(messageQueue), s, []), Lookup(cancelMark, s, 0);
        && fold == Filter(q, (c: Call) => !Under(m, c) && c.runID == "")
        && canceledWithRunID == Filter(q, (c: Call) => Under(m, c) && c.runID != "")
        && Lookup(messageQueue, s, []) == Filter(q, (c: Call) => !Under(m, c) && c.runID != "")
      ensures forall t | t != s :: Lookup(messageQueue, t, []) == Lookup(old(messageQueue), t, [])
    {
      DispositionsMean(Lookup(messageQueue, s, []), Lookup(cancelMark, s, 0));
      var queued := if s in messageQueue then messageQueue[s] else [];
      ghost var m := MarkOf(State(), s);
      var keep := [];
      fold, canceledWithRunID := [], [];
      for i := 0 to |queued|
        invariant fold == Select(queued[..i], m, true, Fold)
        invariant canceledWithRunID == Select(queued[..i], m, true, Announce)
        invariant keep == Select(queued[..i], m, true, Keep)
        invariant State() == old(State()) && nextRun == old(nextRun)
      {
        SelectOne(queued, i, m, true);
        var covered := CanceledBySeq(s, queued[i].acceptSeq);
        if covered {
          if queued[i].runID != "" {
            canceledWithRunID := canceledWithRunID + [queued[i]];
          }
        } else if queued[i].runID != "" {
          keep := keep + [queued[i]];
        } else {
          fold := fold + [queued[i]];
        }
      }
      assert queued[..|queued|] == queued;
      if |keep| == 0 {
        messageQueue := messageQueue - {s};
      } else {
        messageQueue := messageQueue[s := keep];
      }
    }

    /** The cancelled RunCompletes for dropped calls: one per call with a RunID, in order. */
    method PublishCanceledQueueDrops(drops: seq<Call>) returns (published: seq<Call>)
      ensures published == WithRunID(drops)
    {
      published := [];
      for i := 0 to |drops|
        invariant published == WithRunID(drops[..i])
      {
        assert drops[..i + 1] == drops[..i] + [drops[i]];
        FilterAppend(drops[..i], drops[i], (c: Call) => c.runID != "");
        if drops[i].runID == "" { continue; }
        published := published + [drops[i]];
      }
      assert drops[..|drops|] == drops;
    }

    /** The first part of the handoff section: what is queued, without the covered calls. */
    method DropCovered(s: string) returns (queued: seq<Call>, published: seq<Call>)
      modifies this
      ensures queued == Survivors(old(State()), s)
      ensures published == Select(QueueOf(old(State()), s), MarkOf(old(State()), s), false, Announce)
      ensures State() == if MarkOf(old(State()), s) > 0 && QueueOf(old(State()), s) != []
                         then SetQueue(old(State()), s, queued) else old(State())
      ensures nextRun == old(nextRun)
    {
      queued := if s in messageQueue then messageQueue[s] else [];
      published := [];
      if s in cancelMark && cancelMark[s] > 0 && |queued| > 0 {
        var mark := cancelMark[s];
        var kept := [];
        for i := 0 to |queued|
          invariant kept == Select(queued[..i], mark, false, Keep)
          invariant published == Select(queued[..i], mark, false, Announce)
          invariant State() == old(State()) && nextRun == old(nextRun)
        {
          SelectOne(queued, i, mark, false);
          if queued[i].acceptSeq == 0 || queued[i].acceptSeq <= mark {
            if queued[i].runID != "" {
              published := published + [queued[i]];
            }
            continue;
          }
          kept := kept + [queued[i]];
        }
        assert queued[..|queued|] == queued;
        queued := kept;
        messageQueue := messageQueue[s := kept];
      } else {
        NothingCovered(queued, MarkOf(State(), s));
      }
    }

    /** The handoff section. The dequeued call comes with its fresh reservation. */
    method HandOff(s: string) returns (next: Option<Call>, handle: AcceptedRun?, published: seq<Call>)
      modifies this
      ensures published == Select(QueueOf(old(State()), s), MarkOf(old(State()), s), false, Announce)
      ensures Survivors(old(State()), s) == [] ==>
                next.None? && handle == null && State() == HandoffIdle(old(State()), s)
      ensures Survivors(old(State()), s) != [] ==>
                next == Some(NextCall(old(State()), s)) && State() == HandoffNext(old(State()), s)
      ensures Survivors(old(State()), s) != [] ==>
                && handle != null && fresh(handle) && handle.agent == this && handle.Valid() && !handle.done
                && next.value.accepted == Some(handle.seqNo)
      ensures nextRun == old(nextRun)
      ensures var q, m := Lookup(old(messageQueue), s, []), Lookup(old(cancelMark), s, 0);
        var rest := Filter(q, (c: Call) => !Under(m, c));
        && published == Filter(q, (c: Call) => Under(m, c) && c.runID != "")
        && (next.Some? <==> rest != [])
        && (next.Some? ==> handle != null && next.value == rest[0].(accepted := Some(handle.seqNo)))
        && Lookup(messageQueue, s, []) == (if rest == [] then [] else rest[1..])
      ensures cancelMark == if next.None? && Lookup(old(acceptedRuns), s, 0) == 0
                            then old(cancelMark) - {s} else old(cancelMark)
    {
      HandOffMeans(State(), s);
      hide Survivors, Select, Classify, Under;
      ghost var was := State();
      var queued;
      queued, published := DropCovered(s);
      ghost var mid := State();
      if |queued| == 0 {
        ClearIdle(s);
        SameIdle(was, mid, s);
        return None, null, published;
      }
      messageQueue := messageQueue[s := queued[1..]];
      SameRest(was, mid, s, queued);
      handle := BeginAccepted(s);
      next := Some(queued[0].(accepted := Some(handle.seqNo)));
    }

    /** No queued work: the mark goes too, unless an accepted run may still need it. */
    method ClearIdle(s: string)
      modifies this
      ensures State() == HandoffIdle(old(State()), s) && nextRun == old(nextRun)
    {
      messageQueue := messageQueue - {s};
      if Lookup(acceptedRuns, s, 0) == 0 {
        cancelMark := cancelMark - {s};
      }
    }

    method ClearQueueAndNotify(s: string) returns (published: seq<Call>)
      modifies this
      ensures State() == DropQueue(old(State()), s) && published == WithRunID(QueueOf(old(State()), s))
      ensures nextRun == old(nextRun)
    {
      var queued := if s in messageQueue then messageQueue[s] else [];
      messageQueue := messageQueue - {s};
      published := PublishCanceledQueueDrops(queued);
    }

    method ClearQueue(s: string) returns (published: seq<Call>)
      modifies this
      ensures State() == S.ClearQueue(old(State()), s) && published == WithRunID(QueueOf(old(State()), s))
      ensures nextRun == old(nextRun)
    {
      published := [];
      if s in messageQueue && |messageQueue[s]| > 0 {
        published := ClearQueueAndNotify(s);
      }
    }

    /** Cancel, uninterrupted: stop the registered run, raise the mark if handles are
        open, clear the queue. */
    method Cancel(s: string) returns (published: seq<Call>)
      modifies this
      ensures State() == RaiseAndClear(StopActive(old(State()), s), s, ReadForCancel(old(State()), s))
      ensures published == WithRunID(QueueOf(old(State()), s))
      ensures nextRun == old(nextRun)
      ensures stoppedRuns == old(stoppedRuns) + if s in old(activeRequests) then {old(activeRequests)[s]} else {}
      ensures cancelMark == if s in old(acceptedRuns) && old(acceptedRuns)[s] > 0
                            then old(cancelMark)[s := if Lookup(old(cancelMark), s, 0) < acceptSeqGen then acceptSeqGen
                                                      else Lookup(old(cancelMark), s, 0)]
                            else old(cancelMark)
      ensures Lookup(messageQueue, s, []) == []
      ensures forall t | t != s :: Lookup(messageQueue, t, []) == Lookup(old(messageQueue), t, [])
      ensures activeRequests == old(activeRequests) && acceptedRuns == old(acceptedRuns)
      ensures acceptSeqGen == old(acceptSeqGen) && open == old(open)
    {
      if s in activeRequests {
        stoppedRuns := stoppedRuns + {activeRequests[s]};
      }
      var inFlight := s in acceptedRuns && acceptedRuns[s] > 0;
      var mark := acceptSeqGen;
      if inFlight {
        var existing := Lookup(cancelMark, s, 0);
        cancelMark := cancelMark[s := if existing < mark then mark else existing];
      }
      published := ClearQueue(s);
    }
  }

  /** A mark covers a queued call. */
  ghost predicate Under(mark: nat, c: Call) { mark > 0 && (c.acceptSeq == 0 || c.acceptSeq <= mark) }

  /** What becomes of a queue, in terms of the mark and the RunIDs alone. */
  lemma DispositionsMean(q: seq<Call>, m: nat)
    ensures Select(q, m, true, Fold) == Filter(q, (c: Call) => !Under(m, c) && c.runID == "")
    ensures Select(q, m, true, Announce) == Filter(q, (c: Call) => Under(m, c) && c.runID != "")
    ensures Select(q, m, true, Keep) == Filter(q, (c: Call) => !Under(m, c) && c.runID != "")
    ensures Select(q, m, false, Keep) == Filter(q, (c: Call) => !Under(m, c))
    ensures Select(q, m, false, Announce) == Filter(q, (c: Call) => Under(m, c) && c.runID != "")
  {
    FilterSame(q, (c: Call) => Classify(c, m, true) == Fold, (c: Call) => !Under(m, c) && c.runID == "");
    FilterSame(q, (c: Call) => Classify(c, m, true) == Announce, (c: Call) => Under(m, c) && c.runID != "");
    FilterSame(q, (c: Call) => Classify(c, m, true) == Keep, (c: Call) => !Under(m, c) && c.runID != "");
    FilterSame(q, (c: Call) => Classify(c, m, false) == Keep, (c: Call) => !Under(m, c));
    FilterSame(q, (c: Call) => Classify(c, m, false) == Announce, (c: Call) => Under(m, c) && c.runID != "");
  }

  /** The two outcomes of the handoff section, in the same terms. */
  lemma HandOffMeans(a: Agent, s: string)
    ensures var q, m := QueueOf(a, s), MarkOf(a, s); var rest := Filter(q, (c: Call) => !Under(m, c));
      && Select(q, m, false, Announce) == Filter(q, (c: Call) => Under(m, c) && c.runID != "")
      && Survivors(a, s) == rest
      && (rest == [] ==>
          && QueueOf(HandoffIdle(a, s), s) == []
          && HandoffIdle(a, s).mark == if Lookup(a.accepted, s, 0) == 0 then a.mark - {s} else a.mark)
      && (rest != [] ==>
          && QueueOf(HandoffNext(a, s), s) == rest[1..] && HandoffNext(a, s).mark == a.mark
          && NextCall(a, s) == rest[0].(accepted := Some(a.gen + 1)))
  {
    DispositionsMean(QueueOf(a, s), MarkOf(a, s));
    hide Select, Under;
  }

  lemma SelectOne(q: seq<Call>, i: nat, m: nat, folding: bool)
    requires i < |q|
    ensures forall d :: Select(q[..i + 1], m, folding, d) ==
                        Select(q[..i], m, folding, d) + (if Classify(q[i], m, folding) == d then [q[i]] else [])
  {
    assert q[..i + 1] == q[..i] + [q[i]];
    forall d ensures Select(q[..i + 1], m, folding, d) ==
                     Select(q[..i], m, folding, d) + (if Classify(q[i], m, folding) == d then [q[i]] else []) {
      FilterAppend(q[..i], q[i], (c: Call) => Classify(c, m, folding) == d);
    }
  }

  lemma NothingCovered(q: seq<Call>, m: nat)
    requires m == 0 || q == []
    ensures Select(q, m, false, Keep) == q && Select(q, m, false, Announce) == []
  {
    FilterAll(q, (c: Call) => Classify(c, m, false) == Keep);
    FilterNone(q, (c: Call) => Classify(c, m, false) == Announce);
  }

  lemma SameIdle(was: Agent, mid: Agent, s: string)
    requires mid == was || mid == SetQueue(was, s, [])
    ensures HandoffIdle(mid, s) == HandoffIdle(was, s)
  {
  }

  lemma SameRest(was: Agent, mid: Agent, s: string, q: seq<Call>)
    requires q != [] && (mid == was || mid == SetQueue(was, s, q))
    ensures mid.(queue := mid.queue[s := q[1..]]) == SetQueue(was, s, q[1..])
  {
  }
}
