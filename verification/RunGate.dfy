/** Backend.SendMessage and runAgent against Workspace.Shutdown: which runs are dispatched,
    when cleanup may start, and how often an accept reservation is released. */
module RunGate {
  import opened Common

  /** One SendMessage, from its reservation to the end of its goroutine. Go runs the defers
      of runAgent in reverse order, so the reservation is closed before the wait group ticket. */
  datatype SendStage =
    | Reserved        // BeginAccepted returned, runMu not taken yet
    | TurnedAway      // closing was seen, accept.Close still pending
    | Refused         // ErrWorkspaceClosing returned
    | Dispatched      // runWG.Add done, the goroutine runs
    | Returned        // the run returned, accept.Close still pending
    | Released        // accept.Close returned, runWG.Done still pending
    | Over

  /** One Workspace.Shutdown call. Two teardowns can run it at the same time. */
  datatype ShutdownStage = Marked | ContextCancelled | RunsCancelled | Waited | CleaningUp

  /** `runWG` is the wait group's counter; `open` tells which reservations are not closed
      yet and `releases` how often each one was given back. */
  datatype Gate = Gate(
    closing: bool, runWG: int, sends: map<nat, SendStage>, shutdowns: map<nat, ShutdownStage>,
    open: set<nat>, releases: map<nat, nat>)

  const OPENED := Gate(false, 0, map[], map[], {}, map[])

  datatype Event =
    | Reserve(send: nat)
    | PassGate(send: nat)          // SendMessage's runMu section
    | CloseRefused(send: nat)
    | CloseInRun(send: nat)        // Run's dispatch section closes the reservation
    | RunReturns(send: nat)
    | CloseAtEnd(send: nat)        // runAgent's deferred Close
    | TicketDone(send: nat)        // runAgent's deferred runWG.Done
    | MarkClosing(shutdown: nat)
    | CancelContext(shutdown: nat)
    | CancelRuns(shutdown: nat)
    | WaitEnds(shutdown: nat)
    | CleanUp(shutdown: nat)

  function CloseOnce(g: Gate, i: nat): (r: Gate)
    ensures r == g.(open := g.open - {i}, releases := r.releases)
    ensures Lookup(r.releases, i, 0) == Lookup(g.releases, i, 0) + (if i in g.open then 1 else 0)
  {
    if i in g.open
    then g.(open := g.open - {i}, releases := g.releases[i := Lookup(g.releases, i, 0) + 1])
    else g
  }

  function At(g: Gate, i: nat, st: SendStage): Gate { g.(sends := g.sends[i := st]) }

  predicate SendIs(g: Gate, i: nat, st: SendStage) { i in g.sends && g.sends[i] == st }

  predicate ShutdownIs(g: Gate, j: nat, st: ShutdownStage) { j in g.shutdowns && g.shutdowns[j] == st }

  predicate Enabled(g: Gate, e: Event) {
    match e
    case Reserve(i) => i !in g.sends
    case PassGate(i) => SendIs(g, i, Reserved)
    case CloseRefused(i) => SendIs(g, i, TurnedAway)
    case CloseInRun(i) => SendIs(g, i, Dispatched)
    case RunReturns(i) => SendIs(g, i, Dispatched)
    case CloseAtEnd(i) => SendIs(g, i, Returned)
    case TicketDone(i) => SendIs(g, i, Released)
    case MarkClosing(j) => j !in g.shutdowns
    case CancelContext(j) => ShutdownIs(g, j, Marked)
    case CancelRuns(j) => ShutdownIs(g, j, ContextCancelled)
    case WaitEnds(j) => ShutdownIs(g, j, RunsCancelled) && g.runWG == 0
    case CleanUp(j) => ShutdownIs(g, j, Waited)
  }

  function Step(g: Gate, e: Event): Gate
    requires Enabled(g, e)
  {
    match e
    case Reserve(i) => At(g, i, Reserved).(open := g.open + {i}, releases := g.releases[i := 0])
    case PassGate(i) => if g.closing then At(g, i, TurnedAway) else At(g, i, Dispatched).(runWG := g.runWG + 1)
    case CloseRefused(i) => At(CloseOnce(g, i), i, Refused)
    case CloseInRun(i) => CloseOnce(g, i)
    case RunReturns(i) => At(g, i, Returned)
    case CloseAtEnd(i) => At(CloseOnce(g, i), i, Released)
    case TicketDone(i) => At(g, i, Over).(runWG := g.runWG - 1)
    case MarkClosing(j) => g.(closing := true, shutdowns := g.shutdowns[j := Marked])
    case CancelContext(j) => g.(shutdowns := g.shutdowns[j := ContextCancelled])
    case CancelRuns(j) => g.(shutdowns := g.shutdowns[j := RunsCancelled])
    case WaitEnds(j) => g.(shutdowns := g.shutdowns[j := Waited])
    case CleanUp(j) => g.(shutdowns := g.shutdowns[j := CleaningUp])
  }

  ghost predicate IsRun(gs: seq<Gate>, es: seq<Event>) {
    && |gs| == |es| + 1 && gs[0] == OPENED
    && forall k | 0 <= k < |es| :: Enabled(gs[k], es[k]) && gs[k + 1] == Step(gs[k], es[k])
  }

  /** The goroutine of a dispatched run is still there. */
  predicate Live(st: SendStage) { st.Dispatched? || st.Returned? || st.Released? }

  ghost function LiveSends(sends: map<nat, SendStage>): set<nat> { set i | i in sends && Live(sends[i]) }

  ghost predicate Accounted(g: Gate, i: nat)
    requires i in g.sends
  {
    && i in g.releases
    && g.releases[i] == (if i in g.open then 0 else 1)
    && (g.sends[i].Reserved? || g.sends[i].TurnedAway? ==> i in g.open)
    && (g.sends[i].Refused? || g.sends[i].Released? || g.sends[i].Over? ==> i !in g.open)
  }

  ghost predicate Inv(g: Gate) {
    && g.runWG == |LiveSends(g.sends)|
    && (forall i | i in g.sends :: Accounted(g, i))
    && (forall j | j in g.shutdowns :: g.closing)
    && (forall j | j in g.shutdowns && (g.shutdowns[j].Waited? || g.shutdowns[j].CleaningUp?) :: g.runWG == 0)
  }

  lemma LiveAfter(sends: map<nat, SendStage>, i: nat, st: SendStage)
    ensures LiveSends(sends[i := st]) == if Live(st) then LiveSends(sends) + {i} else LiveSends(sends) - {i}
    ensures |LiveSends(sends[i := st])| == |LiveSends(sends)|
            + (if Live(st) && i !in LiveSends(sends) then 1 else 0)
            - (if !Live(st) && i in LiveSends(sends) then 1 else 0)
  {
    assert LiveSends(sends[i := st]) == if Live(st) then LiveSends(sends) + {i} else LiveSends(sends) - {i};
  }

  lemma CountKept(g: Gate, e: Event)
    requires Enabled(g, e) && g.runWG == |LiveSends(g.sends)|
    ensures Step(g, e).runWG == |LiveSends(Step(g, e).sends)|
  {
    hide CloseOnce, LiveSends;
    match e
    case Reserve(i) => SendMoves(g, i, Reserved);
    case PassGate(i) => SendMoves(g, i, if g.closing then TurnedAway else Dispatched);
    case CloseRefused(i) => SendMoves(g, i, Refused);
    case RunReturns(i) => SendMoves(g, i, Returned);
    case CloseAtEnd(i) => SendMoves(g, i, Released);
    case TicketDone(i) => SendMoves(g, i, Over);
    case _ =>
  }

  /** A send that moves on adds a live one, or takes one away, or neither. */
  lemma SendMoves(g: Gate, i: nat, st: SendStage)
    ensures |LiveSends(g.sends[i := st])|
         == |LiveSends(g.sends)| + (if Live(st) then 1 else 0) - (if i in g.sends && Live(g.sends[i]) then 1 else 0)
  {
    hide LiveSends, Live;
    LiveAfter(g.sends, i, st);
    IsLive(g.sends, i);
  }

  lemma IsLive(sends: map<nat, SendStage>, i: nat)
    ensures i in LiveSends(sends) <==> i in sends && Live(sends[i])
  {
  }

  lemma AccountKept(g: Gate, e: Event)
    requires Enabled(g, e) && forall i | i in g.sends :: Accounted(g, i)
    ensures forall i | i in Step(g, e).sends :: Accounted(Step(g, e), i)
  {
  }

  lemma StepKeeps(g: Gate, e: Event)
    requires Enabled(g, e) && Inv(g)
    ensures Inv(Step(g, e))
  {
    hide Accounted, LiveSends;
    CountKept(g, e);
    AccountKept(g, e);
    if e.PassGate? && !g.closing { NoShutdown(g); }
    if e.TicketDone? { LastTicket(g, e.send); }
  }

  lemma NoShutdown(g: Gate)
    requires Inv(g) && !g.closing
    ensures g.shutdowns == map[]
  {
  }

  /** A live goroutine holds a ticket, so nobody is past the wait. */
  lemma LastTicket(g: Gate, i: nat)
    requires Inv(g) && i in g.sends && Live(g.sends[i])
    ensures g.runWG > 0
  {
    assert i in LiveSends(g.sends);
  }

  lemma {:induction false} RunKeeps(gs: seq<Gate>, es: seq<Event>, k: nat)
    requires IsRun(gs, es) && k < |gs|
    ensures Inv(gs[k])
  {
    if k == 0 {
    } else {
      RunKeeps(gs, es, k - 1);
      StepKeeps(gs[k - 1], es[k - 1]);
    }
  }

  /** Closing is never undone. */
  lemma {:induction false} ClosingStays(gs: seq<Gate>, es: seq<Event>, k: nat, l: nat)
    requires IsRun(gs, es) && k <= l < |gs| && gs[k].closing
    ensures gs[l].closing
  {
    if k == l {
    } else {
      ClosingStays(gs, es, k, l - 1);
    }
  }

  /** No run is dispatched after `closing` is set: every later SendMessage is turned away. */
  lemma NoDispatchAfterClosing(gs: seq<Gate>, es: seq<Event>, k: nat, l: nat)
    requires IsRun(gs, es) && k <= l < |es| && gs[k].closing
    ensures LiveSends(gs[l + 1].sends) <= LiveSends(gs[l].sends)
    ensures es[l].PassGate? ==> SendIs(gs[l + 1], es[l].send, TurnedAway)
  {
    ClosingStays(gs, es, k, l);
  }

  /** The gate is open exactly until the first Shutdown: a SendMessage is dispatched if no
      Shutdown has set `closing` yet, and turned away otherwise. */
  lemma {:induction false} GateOpensUntilShutdown(gs: seq<Gate>, es: seq<Event>, k: nat)
    requires IsRun(gs, es) && k < |gs|
    ensures gs[k].closing <==> exists l: nat :: l < k && es[l].MarkClosing?
    ensures k < |es| && es[k].PassGate? ==>
      SendIs(gs[k + 1], es[k].send, if exists l: nat :: l < k && es[l].MarkClosing? then TurnedAway else Dispatched)
  {
    hide Step, Enabled;
    if k == 0 {
    } else {
      GateOpensUntilShutdown(gs, es, k - 1);
      GateStep(gs[k - 1], es[k - 1]);
    }
    if k < |es| { GateStep(gs[k], es[k]); }
  }

  lemma GateStep(g: Gate, e: Event)
    requires Enabled(g, e)
    ensures Step(g, e).closing <==> g.closing || e.MarkClosing?
    ensures e.PassGate? ==> SendIs(Step(g, e), e.send, if g.closing then TurnedAway else Dispatched)
  {
  }

  lemma WaitedStays(g: Gate, e: Event, j: nat)
    requires Enabled(g, e) && (ShutdownIs(g, j, Waited) || ShutdownIs(g, j, CleaningUp))
    ensures ShutdownIs(Step(g, e), j, Waited) || ShutdownIs(Step(g, e), j, CleaningUp)
  {
  }

  lemma {:induction false} CleanupStays(gs: seq<Gate>, es: seq<Event>, j: nat, k: nat, l: nat)
    requires IsRun(gs, es) && k <= l < |gs|
    requires ShutdownIs(gs[k], j, Waited) || ShutdownIs(gs[k], j, CleaningUp)
    ensures ShutdownIs(gs[l], j, Waited) || ShutdownIs(gs[l], j, CleaningUp)
  {
    hide Step, Enabled;
    if k == l {
    } else {
      CleanupStays(gs, es, j, k, l - 1);
      WaitedStays(gs[l - 1], es[l - 1], j);
    }
  }

  /** No run outlives its workspace's cleanup: when any Shutdown call starts the embedded
      cleanup, and ever after, no dispatched run is left. */
  lemma NoRunOutlivesCleanup(gs: seq<Gate>, es: seq<Event>, j: nat, k: nat, l: nat)
    requires IsRun(gs, es) && k <= l < |gs| && k < |es| && es[k] == CleanUp(j)
    ensures LiveSends(gs[l].sends) == {}
  {
    CleanupStays(gs, es, j, k, l);
    RunKeeps(gs, es, l);
  }

  /** Each accept reservation is released at most once, and exactly once by the time its
      SendMessage was refused or its goroutine is over. */
  lemma ReleasedExactlyOnce(gs: seq<Gate>, es: seq<Event>, i: nat, k: nat)
    requires IsRun(gs, es) && k < |gs| && i in gs[k].sends
    ensures i in gs[k].releases && gs[k].releases[i] <= 1
    ensures gs[k].sends[i].Refused? || gs[k].sends[i].Over? ==> gs[k].releases[i] == 1
  {
    RunKeeps(gs, es, k);
    assert Accounted(gs[k], i);
  }

  /** The part of a Workspace that gates runs. `gate` is the state of the protocol above that
      the two fields belong to; the sends and shutdowns themselves are goroutines. */
  class Workspace {
    var closing: bool
    var runWG: nat
    ghost var gate: Gate

    ghost predicate Valid()
      reads this
    {
      closing == gate.closing && runWG == gate.runWG && Inv(gate)
    }

    constructor ()
      ensures Valid() && gate == OPENED
    {
      closing, runWG, gate := false, 0, OPENED;
      new;
      assert LiveSends(gate.sends) == {};
    }

    /** SendMessage's runMu section: the decision and the ticket are one step of the protocol,
        and the send is dispatched exactly if it was admitted. */
    method PassGate(ghost send: nat) returns (admitted: bool)
      requires Valid() && Enabled(gate, Event.PassGate(send))
      modifies this
      ensures Valid() && gate == Step(old(gate), Event.PassGate(send))
      ensures SendIs(gate, send, if admitted then Dispatched else TurnedAway)
      ensures admitted <==> !old(closing)
      ensures closing == old(closing) && runWG == old(runWG) + if admitted then 1 else 0
    {
      StepKeeps(gate, Event.PassGate(send));
      gate := Step(gate, Event.PassGate(send));
      if closing { return false; }
      runWG := runWG + 1;
      return true;
    }

    /** runAgent's deferred Done. A goroutine that still owes it keeps the counter positive,
        so the wait group never goes negative. */
    method RunDone(ghost send: nat)
      requires Valid() && Enabled(gate, TicketDone(send))
      modifies this
      ensures Valid() && gate == Step(old(gate), TicketDone(send))
      ensures send !in LiveSends(gate.sends)
      ensures closing == old(closing) && runWG == old(runWG) - 1
    {
      StepKeeps(gate, TicketDone(send));
      LastTicket(gate, send);
      gate := Step(gate, TicketDone(send));
      runWG := runWG - 1;
    }

    /** The first section of Shutdown: from here on every send is turned away. */
    method MarkClosing(ghost shutdown: nat)
      requires Valid() && Enabled(gate, Event.MarkClosing(shutdown))
      modifies this
      ensures Valid() && gate == Step(old(gate), Event.MarkClosing(shutdown))
      ensures forall i | SendIs(gate, i, Reserved) :: SendIs(Step(gate, Event.PassGate(i)), i, TurnedAway)
      ensures closing && runWG == old(runWG)
    {
      StepKeeps(gate, Event.MarkClosing(shutdown));
      gate := Step(gate, Event.MarkClosing(shutdown));
      closing := true;
    }
  }
}
