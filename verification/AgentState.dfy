/** The fields of sessionAgent that the dispatch protocol uses, as a value, and one
    function per lock section of internal/agent/agent.go. */
module AgentState {
  import opened Common

  /** A SessionAgentCall, reduced to what dispatch looks at. `prompt` is the identity of
      the submitted prompt, `hooked` says that OnComplete is set, and `accepted` holds
      the sequence of the AcceptedRun handle that came with the call, if any. */
  datatype Call = Call(
    prompt: nat, session: string, runID: string, hooked: bool, accepted: Option<nat>, acceptSeq: nat)

  /** `active` maps a session to the identity of the registered activeCancel, `stopped`
      collects the identities whose context was cancelled by Cancel, and `open` maps the
      sequence of every handle that was not closed yet to its session. */
  datatype Agent = Agent(
    queue: map<string, seq<Call>>,
    active: map<string, nat>,
    accepted: map<string, nat>,
    mark: map<string, nat>,
    gen: nat,
    open: map<nat, string>,
    stopped: set<nat>)

  const NEW_AGENT := Agent(map[], map[], map[], map[], 0, map[], {})

  function MarkOf(a: Agent, s: string): nat { Lookup(a.mark, s, 0) }

  function QueueOf(a: Agent, s: string): seq<Call> { Lookup(a.queue, s, []) }

  /** canceledBySeq: 0 stands for "no mark", and an untracked sequence is covered by any mark. */
  predicate CoveredBy(mark: nat, seqNo: nat) {
    mark != 0 && (seqNo == 0 || seqNo <= mark)
  }

  // ---------------------------------------------------------------- accept reservations

  function BeginAccepted(a: Agent, s: string): Agent {
    a.(accepted := a.accepted[s := Lookup(a.accepted, s, 0) + 1],
       gen := a.gen + 1,
       open := a.open[a.gen + 1 := s])
  }

  function EndAccepted(a: Agent, s: string): Agent {
    if s !in a.accepted || a.accepted[s] <= 1
    then a.(accepted := a.accepted - {s}, mark := a.mark - {s})
    else a.(accepted := a.accepted[s := a.accepted[s] - 1])
  }

  /** AcceptedRun.Close: only the first call has an effect. */
  function CloseHandle(a: Agent, h: nat): Agent {
    if h in a.open then EndAccepted(a.(open := a.open - {h}), a.open[h]) else a
  }

  function CloseOf(a: Agent, h: Option<nat>): Agent {
    if h.Some? then CloseHandle(a, h.value) else a
  }

  // ------------------------------------------------------------------------- Run entry

  /** What is left of a call once it sits in the queue. */
  function QueuedForm(call: Call): Call {
    call.(acceptSeq := if call.accepted.Some? then call.accepted.value else call.acceptSeq,
          hooked := false, accepted := None)
  }

  function Enqueue(a: Agent, call: Call): Agent {
    a.(queue := a.queue[call.session := QueueOf(a, call.session) + [QueuedForm(call)]])
  }

  datatype Decision = CancelOnEntry | JoinQueue | BecomeActive

  function Decide(a: Agent, call: Call): Decision {
    if call.accepted.Some? && CoveredBy(MarkOf(a, call.session), call.accepted.value) then CancelOnEntry
    else if call.session in a.active then JoinQueue
    else BecomeActive
  }

  /** The dispatch section of Run; `run` is the identity of the fresh activeCancel. */
  function EnterRun(a: Agent, call: Call, run: nat): Agent {
    match Decide(a, call)
    case CancelOnEntry => CloseOf(a, call.accepted)
    case JoinQueue => CloseOf(Enqueue(a, call), call.accepted)
    case BecomeActive => CloseOf(a.(active := a.active[call.session := run]), call.accepted)
  }

  /** The explicit deletion when a turn completes. */
  function DeleteActive(a: Agent, s: string): Agent { a.(active := a.active - {s}) }

  /** csync.Map.CompareAndDelete on activeRequests. */
  function CompareAndDelete(a: Agent, s: string, run: nat): Agent {
    if s in a.active && a.active[s] == run then a.(active := a.active - {s}) else a
  }

  // ------------------------------------------------------------- step drain and handoff

  /** What becomes of one queued call when the queue is inspected: dropped without notice,
      dropped with a cancelled RunComplete, folded into the running turn, or kept. */
  datatype Disposition = Discard | Announce | Fold | Keep

  function Classify(call: Call, mark: nat, folding: bool): Disposition {
    if CoveredBy(mark, call.acceptSeq) then (if call.runID != "" then Announce else Discard)
    else if folding && call.runID == "" then Fold
    else Keep
  }

  function Select(q: seq<Call>, mark: nat, folding: bool, d: Disposition): (r: seq<Call>)
    ensures forall c :: c in r <==> c in q && Classify(c, mark, folding) == d
  {
    Filter(q, (c: Call) => Classify(c, mark, folding) == d)
  }

  /** The queue map after a section leaves `q` behind for the session. */
  function SetQueue(a: Agent, s: string, q: seq<Call>): Agent {
    a.(queue := a.queue[s := q])
  }

  function DropQueue(a: Agent, s: string): Agent {
    a.(queue := a.queue - {s})
  }

  function Drain(a: Agent, s: string): Agent {
    var keep := Select(QueueOf(a, s), MarkOf(a, s), true, Keep);
    if keep == [] then DropQueue(a, s) else SetQueue(a, s, keep)
  }

  /** The queue that the handoff section hands on from: without the covered calls. */
  function Survivors(a: Agent, s: string): seq<Call> {
    Select(QueueOf(a, s), MarkOf(a, s), false, Keep)
  }

  /** The handoff section when no queued work remains. */
  function HandoffIdle(a: Agent, s: string): Agent {
    var a1 := DropQueue(a, s);
    if Lookup(a.accepted, s, 0) == 0 then a1.(mark := a1.mark - {s}) else a1
  }

  /** The handoff section when a prompt is dequeued: it gets a fresh reservation. */
  function HandoffNext(a: Agent, s: string): Agent
    requires Survivors(a, s) != []
  {
    BeginAccepted(SetQueue(a, s, Survivors(a, s)[1..]), s)
  }

  function NextCall(a: Agent, s: string): Call
    requires Survivors(a, s) != []
  {
    Survivors(a, s)[0].(accepted := Some(a.gen + 1))
  }

  // ---------------------------------------------------------------------------- Cancel

  /** What Cancel read under acceptedMu: whether handles were open, and the generator. */
  datatype CancelRead = CancelRead(inFlight: bool, gen: nat)

  function ReadForCancel(a: Agent, s: string): CancelRead {
    CancelRead(Lookup(a.accepted, s, 0) > 0, a.gen)
  }

  /** First half of Cancel: stop the registered run. */
  function StopActive(a: Agent, s: string): Agent {
    if s in a.active then a.(stopped := a.stopped + {a.active[s]}) else a
  }

  function Max(x: nat, y: nat): nat { if x < y then y else x }

  /** Second half of Cancel: raise the mark if handles were open, then clear the queue. */
  function RaiseAndClear(a: Agent, s: string, read: CancelRead): Agent {
    var a1 := if read.inFlight then a.(mark := a.mark[s := Max(MarkOf(a, s), read.gen)]) else a;
    ClearQueue(a1, s)
  }

  function ClearQueue(a: Agent, s: string): Agent {
    if QueueOf(a, s) != [] then DropQueue(a, s) else a
  }

  /** Of a cleared queue, the calls that owe their caller a cancelled RunComplete. */
  function WithRunID(q: seq<Call>): (r: seq<Call>)
    ensures forall c :: c in r <==> c in q && c.runID != ""
  {
    Filter(q, (c: Call) => c.runID != "")
  }
}
