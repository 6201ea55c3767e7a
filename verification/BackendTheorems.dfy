/** What the workspace lifecycle guarantees over every run of the Backend. */
module BackendTheorems {
  import opened Common
  import opened BackendState
  import opened BackendProtocol

  ghost predicate IsClaim(b: Backend, ws: nat, client: string) {
    ws in b.spaces && client in b.spaces[ws].clients
  }

  /** The open streams that a client has on a workspace. */
  ghost function Streams(b: Backend, ws: nat, client: string): nat {
    if ws in b.spaces then StreamsIn(b.spaces[ws].clients, client) else 0
  }

  ghost function StreamsIn(clients: map<string, Claim>, client: string): nat {
    if client in clients then clients[client].streams else 0
  }

  // ------------------------------------------------------------------------ the idle latch

  /** A set latch is never taken back, and an idle one keeps its mark. */
  lemma LatchStays(w: World, e: Event)
    requires Enabled(w, e) && Inv(w)
    ensures WellTyped(w)
    ensures w.b.closing ==> Step(w, e).b.closing
    ensures w.idleLatched ==> Step(w, e).idleLatched
    ensures !w.b.closing && Step(w, e).b.closing && e != ShutdownNow ==> Step(w, e).idleLatched
  {
    hide SpacesInv, IdleInv, WellTyped, Step;
    TypedOf(w);
    if e.Attach? || e.Detach? || e.Release? || e.TimerFires? {
      ClaimsFrame(w, e);
    } else if e.CreateBegins? || e.CreateFinishes? {
      CreateServer(w, e);
    } else {
      DecidedStep(w, e);
      DecisionLatch(w, e);
    }
  }

  lemma DecisionLatch(w: World, e: Event)
    requires Enabled(w, e) && WellTyped(w) && IsDecision(e)
    ensures w.b.closing ==> Decided(w, e).b.closing
    ensures w.idleLatched ==> Decided(w, e).idleLatched
    ensures !w.b.closing && Decided(w, e).b.closing && e != ShutdownNow ==> Decided(w, e).idleLatched
  {
    assert e.TeardownRuns? ==> e.ws in w.b.spaces;
    hide WellTyped, Retire, Orphaned, Idle, Removed;
    if e.RetireClient? { RetireServer(w, e.client); }
  }

  /** What the two sections of a create leave as it is. */
  lemma CreateServer(w: World, e: Event)
    requires Enabled(w, e) && SpacesInv(w) && (e.CreateBegins? || e.CreateFinishes?)
    ensures WellTyped(w)
    ensures var w' := Step(w, e);
      w'.b.closing == w.b.closing && w'.b.retired == w.b.retired && w'.b.hook == w.b.hook
      && w'.idleLatched == w.idleLatched && (w.admitted ==> w'.admitted)
      && (e.CreateBegins? && Admit(w.b, e.client).None? ==> w'.admitted)
  {
    hide SpacesInv, TimerOf, BeginCreate, FinishCreate, BeginOutcome, FinishOutcome;
    TypedOf(w);
    if e.CreateBegins? {
      BeginServer(w, e.client, e.path, e.channels);
    } else {
      FinishServer(w, w.creates[e.create]);
    }
  }

  lemma BeginServer(w: World, client: string, path: string, channels: seq<string>)
    requires SpacesInv(w)
    ensures WellTyped(w)
    ensures var b := BeginCreate(w.b, client, path, channels);
      b.closing == w.b.closing && b.live == w.b.live && b.hook == w.b.hook && b.spaces.Keys == w.b.spaces.Keys
      && b.retired == w.b.retired && (w.b.closing ==> b == w.b)
  {
    hide Registered, SpacesInv;
    TypedOf(w);
    FoundIsLive(w, path);
  }

  lemma FinishServer(w: World, c: Create)
    requires SpacesInv(w)
    ensures WellTyped(w)
    ensures var b := FinishCreate(w.b, c.client, c.path, c.channels, w.nextSpace);
      b.closing == w.b.closing && b.hook == w.b.hook && b.retired == w.b.retired
      && (b.live == w.b.live || b.live == w.b.live + {w.nextSpace})
      && w.b.spaces.Keys <= b.spaces.Keys && (w.b.closing ==> b == w.b)
  {
  }

  lemma {:induction false} LatchStaysInRun(hook: bool, ws: seq<World>, es: seq<Event>, i: nat, j: nat)
    requires IsRun(hook, ws, es) && i <= j < |ws|
    ensures ws[i].b.closing ==> ws[j].b.closing
    ensures ws[i].idleLatched ==> ws[j].idleLatched
  {
    hide Inv, Step, Enabled, WellTyped;
    if i == j {
    } else {
      LatchStaysInRun(hook, ws, es, i, j - 1);
      RunKeeps(hook, ws, es, j - 1);
      LatchStays(ws[j - 1], es[j - 1]);
    }
  }

  /** The server never exits under a workspace: when anything but an explicit Shutdown sets
      the latch, no workspace is live and no create is pending, then and ever after. */
  lemma ServerNeverExitsUnderWorkspace(hook: bool, ws: seq<World>, es: seq<Event>, i: nat, j: nat)
    requires IsRun(hook, ws, es) && i < j < |ws|
    requires !ws[i].b.closing && ws[i + 1].b.closing && es[i] != ShutdownNow
    ensures ws[j].b.closing && ws[j].b.live == {} && ws[j].b.pending == 0 && ws[j].creates == map[]
  {
    hide Step, Enabled, SpacesInv;
    RunKeeps(hook, ws, es, i);
    LatchStays(ws[i], es[i]);
    LatchStaysInRun(hook, ws, es, i + 1, j);
    RunKeeps(hook, ws, es, j);
  }

  /** After any latch, an explicit Shutdown included, no create registers a workspace or a
      claim, not even one that was already in its slow init. */
  lemma LatchedCreatesRegisterNothing(hook: bool, ws: seq<World>, es: seq<Event>, i: nat, j: nat)
    requires IsRun(hook, ws, es) && i <= j < |es| && ws[i].b.closing
    requires es[j].CreateBegins? || es[j].CreateFinishes?
    ensures ws[j + 1].b == ws[j].b
  {
    hide SpacesInv, IdleInv, Enabled, WellTyped, TimerOf;
    LatchStaysInRun(hook, ws, es, i, j);
    RunKeeps(hook, ws, es, j);
    if es[j].CreateBegins? {
      BeginServer(ws[j], es[j].client, es[j].path, es[j].channels);
    } else {
      assert Enabled(ws[j], es[j]);
      FinishServer(ws[j], CreateOf(ws[j], es[j]));
    }
  }

  ghost function CreateOf(w: World, e: Event): Create
    requires e.CreateFinishes? && Enabled(w, e)
  {
    w.creates[e.create]
  }

  // -------------------------------------------------------------------- the workspace map

  lemma OtherEventsKeepMap(w: World, e: Event)
    requires Enabled(w, e) && SpacesInv(w) && IdleInv(w) && !e.CreateFinishes? && !e.TeardownRuns?
    ensures WellTyped(w)
    ensures Step(w, e).b.live == w.b.live && Step(w, e).b.spaces.Keys == w.b.spaces.Keys
  {
    hide SpacesInv, IdleInv, WellTyped, Step;
    TypedOf(w);
    if e.Attach? || e.Detach? || e.Release? || e.TimerFires? {
      ClaimsFrame(w, e);
    } else if e.CreateBegins? {
      CreateStep(w, e);
      BeginServer(w, e.client, e.path, e.channels);
    } else {
      hide Retire, Orphaned, ScheduleIfIdle;
      DecidedStep(w, e);
      match e
      case CreateSettles(_, lingers) => ScheduleKeepsSpaces(w.b.(pending := w.b.pending - 1), lingers);
      case RetireClient(c) => RetireServer(w, c);
      case _ =>
    }
  }

  lemma MapStep(w: World, e: Event, v: nat)
    requires Enabled(w, e) && Inv(w)
    ensures WellTyped(w)
    ensures w.b.spaces.Keys <= Step(w, e).b.spaces.Keys
    ensures v in w.b.live && v !in Step(w, e).b.live ==> e.TeardownRuns? && e.ws == v && w.b.spaces[v].clients == map[]
    ensures v !in w.b.live && v in Step(w, e).b.live ==> e.CreateFinishes? && v == w.nextSpace && v !in w.b.spaces
  {
    hide SpacesInv, IdleInv, FinishCreate, ScheduleIfIdle, TimerOf;
    TypedOf(w);
    match e
    case CreateFinishes(k) =>
      FreshSpace(w);
      FinishServer(w, w.creates[k]);
    case TeardownRuns(u, lingers) => ScheduleKeepsSpaces(Removed(w.b, u), lingers);
    case _ => OtherEventsKeepMap(w, e);
  }

  lemma RetireServer(w: World, client: string)
    requires WellTyped(w)
    ensures var b := Retire(w.b, client);
      b.live == w.b.live && b.spaces.Keys == w.b.spaces.Keys && b.closing == w.b.closing && b.hook == w.b.hook
      && b.pending == w.b.pending && b.retired == w.b.retired + {client}
  {
  }

  lemma FreshSpace(w: World)
    requires SpacesInv(w)
    ensures w.nextSpace !in w.b.spaces
  {
  }

  /** In every run a workspace leaves the map only through its own teardown and only without
      claims, and enters it only as the fresh workspace of a create. */
  lemma MapChanges(hook: bool, ws: seq<World>, es: seq<Event>, i: nat, v: nat)
    requires IsRun(hook, ws, es) && i < |es|
    ensures v in ws[i].b.live && v !in ws[i + 1].b.live ==>
      es[i].TeardownRuns? && es[i].ws == v && v in ws[i].b.spaces && ws[i].b.spaces[v].clients == map[]
    ensures v !in ws[i].b.live && v in ws[i + 1].b.live ==> es[i].CreateFinishes? && v !in ws[i].b.spaces
  {
    hide Step, Enabled, SpacesInv, IdleInv;
    RunKeeps(hook, ws, es, i);
    MapStep(ws[i], es[i], v);
  }

  /** No workspace is stolen: one with a claim stays mapped. None is orphaned: a mapped one
      without claims has a teardown in flight. */
  lemma NoneStolenNoneOrphaned(hook: bool, ws: seq<World>, es: seq<Event>, i: nat, v: nat, client: string)
    requires IsRun(hook, ws, es) && i < |ws|
    ensures i < |es| && IsClaim(ws[i].b, v, client) ==> v in ws[i].b.live && v in ws[i + 1].b.live
    ensures v in ws[i].b.live ==> v in ws[i].b.spaces && (ws[i].b.spaces[v].clients == map[] ==> v in ws[i].teardowns)
  {
    hide Step, Enabled, IdleInv;
    RunKeeps(hook, ws, es, i);
    if v in ws[i].b.spaces { assert SpaceInv(ws[i], v); }
    if i < |es| { MapStep(ws[i], es[i], v); }
  }

  /** A workspace that was removed is never mapped again and never gains a claim again. */
  lemma {:induction false} RemovedStaysRemoved(hook: bool, ws: seq<World>, es: seq<Event>, i: nat, j: nat, v: nat)
    requires IsRun(hook, ws, es) && i <= j < |ws| && v in ws[i].b.spaces && v !in ws[i].b.live
    ensures v in ws[j].b.spaces && v !in ws[j].b.live && ws[j].b.spaces[v].clients == map[]
  {
    hide Step, Enabled, IdleInv, WellTyped;
    RunKeeps(hook, ws, es, j);
    if i == j {
    } else {
      RemovedStaysRemoved(hook, ws, es, i, j - 1, v);
      RunKeeps(hook, ws, es, j - 1);
      MapStep(ws[j - 1], es[j - 1], v);
    }
    assert SpaceInv(ws[j], v);
  }

  /** The path index and the workspace map are inverse, so a path has one live workspace. */
  lemma OneLiveWorkspacePerPath(hook: bool, ws: seq<World>, es: seq<Event>, i: nat)
    requires IsRun(hook, ws, es) && i < |ws|
    ensures var b := ws[i].b;
      && (forall v | v in b.live :: v in b.spaces)
      && (forall p, v :: (p in b.pathIndex && b.pathIndex[p] == v) <==> (v in b.live && b.spaces[v].path == p))
      && (forall u, v | u in b.live && v in b.live && b.spaces[u].path == b.spaces[v].path :: u == v)
  {
    hide Step, Enabled, IdleInv;
    RunKeeps(hook, ws, es, i);
    var b := ws[i].b;
    assert forall v | v in b.live :: v in b.spaces && SpaceInv(ws[i], v);
  }

  /** What a create gets out of one of its sections. */
  ghost predicate GetsOut(w: World, e: Event, client: string, path: string, channels: seq<string>, out: Outcome)
    requires Enabled(w, e)
  {
    || (e.CreateBegins? && (client, path, channels) == (e.client, e.path, e.channels)
        && out == BeginOutcome(w.b, client, path, channels))
    || (e.CreateFinishes? && CreateOf(w, e) == Create(client, path, channels, false)
        && out == FinishOutcome(w.b, client, path, channels, w.nextSpace))
  }

  /** A create that succeeds returns the indexed workspace of its path, mapped and with the
      client registered at that moment, from either of its two sections. One that is refused
      or goes on to its slow init changes no workspace. */
  lemma CreateReturnsClaimedWorkspace(
      hook: bool, ws: seq<World>, es: seq<Event>, i: nat,
      client: string, path: string, channels: seq<string>, out: Outcome)
    requires IsRun(hook, ws, es) && i < |es| && GetsOut(ws[i], es[i], client, path, channels, out)
    ensures var b := ws[i + 1].b;
      && (out.Joined? ==>
          && path in b.pathIndex && b.pathIndex[path] == out.ws && out.ws in b.live && IsClaim(b, out.ws, client)
          && b.spaces[out.ws].channels == channels)
      && (!out.Joined? ==> b.spaces == ws[i].b.spaces && b.live == ws[i].b.live)
      && (out.Slow? ==> es[i].CreateBegins?)
  {
  }

  // ------------------------------------------------------------------------- claim shape

  /** Every claim has open streams and no timer, or a timer and no streams. */
  lemma ClaimShapeHolds(hook: bool, ws: seq<World>, es: seq<Event>, i: nat, v: nat, client: string)
    requires IsRun(hook, ws, es) && i < |ws| && IsClaim(ws[i].b, v, client)
    ensures var cs := ws[i].b.spaces[v].clients[client];
      (cs.streams > 0 && !cs.hold) || (cs.streams == 0 && cs.hold)
  {
    hide Step, Enabled, IdleInv;
    RunKeeps(hook, ws, es, i);
    assert SpaceInv(ws[i], v);
  }

  /** What one event does to the streams of one client on one workspace. */
  ghost function StreamsAfter(w: World, e: Event, v: nat, client: string): nat {
    var n := Streams(w.b, v, client);
    match e
    case Attach(u, c) => if u == v && c == client && v in w.b.live then n + 1 else n
    case Detach(u, c, _) => if u == v && c == client && n > 0 then n - 1 else n
    case RetireClient(c) => if c == client then 0 else n
    case _ => n
  }

  lemma RegisteredStreams(clients: map<string, Claim>, n: nat, client: string, c: string)
    requires Shapely(clients, n)
    ensures StreamsIn(Registered(clients, client, n), c) == StreamsIn(clients, c)
  {
  }

  lemma ReleasedStreams(clients: map<string, Claim>, n: nat, client: string, id: nat, c: string)
    requires Shapely(clients, n)
    ensures StreamsIn(Released(clients, client).clients, c) == StreamsIn(clients, c)
    ensures StreamsIn(Expired(clients, client, id).clients, c) == StreamsIn(clients, c)
  {
  }

  lemma DetachedStreams(clients: map<string, Claim>, client: string, grace: bool, c: string)
    ensures var n := StreamsIn(clients, c);
      StreamsIn(Detached(clients, client, grace).clients, c) == if c == client && n > 0 then n - 1 else n
  {
  }

  lemma ClaimStreams(w: World, e: Event, v: nat, client: string)
    requires (e.Attach? || e.Detach? || e.Release? || e.TimerFires?) && Enabled(w, e) && SpacesInv(w)
    ensures WellTyped(w)
    ensures Streams(Step(w, e).b, v, client) == StreamsAfter(w, e, v, client)
  {
    hide SpacesInv, TimerOf, Detached, Released, Expired, Shapely;
    TypedOf(w);
    match e
    case Detach(u, c, grace) => DetachedStreams(ClaimsOf(w, u), c, grace, client);
    case Release(u, c) =>
      ShapedIn(w, u);
      ReleasedStreams(ClaimsOf(w, u), w.b.nextClaim, c, 0, client);
    case TimerFires(t) =>
      ShapedIn(w, t.ws);
      ReleasedStreams(ClaimsOf(w, t.ws), w.b.nextClaim, t.client, t.id, client);
    case _ =>
  }

  lemma StreamStep(w: World, e: Event, v: nat, client: string)
    requires Enabled(w, e) && Inv(w)
    ensures WellTyped(w)
    ensures Streams(Step(w, e).b, v, client) == StreamsAfter(w, e, v, client)
  {
    hide SpacesInv, IdleInv;
    TypedOf(w);
    if e.Attach? || e.Detach? || e.Release? || e.TimerFires? {
      hide Step, StreamsAfter;
      ClaimStreams(w, e, v, client);
    } else {
      hide WellTyped, TimerOf, BeginCreate, FinishCreate, Retire, ScheduleIfIdle;
      match e
      case CreateBegins(_, c, path, channels) => BeginStreams(w, c, path, channels, v, client);
      case CreateFinishes(k) => FinishStreams(w, w.creates[k], v, client);
      case RetireClient(c) => RetireStreams(w, c, v, client);
      case CreateSettles(_, lingers) => ScheduleKeepsSpaces(w.b.(pending := w.b.pending - 1), lingers);
      case TeardownRuns(u, lingers) =>
        hide Streams;
        TeardownStreams(w, u, lingers, v, client);
      case _ =>
    }
  }

  lemma TeardownStreams(w: World, u: nat, lingers: bool, v: nat, client: string)
    requires u in w.b.spaces
    ensures Streams(Teardown(w.b, u, lingers), v, client) == Streams(w.b, v, client)
  {
    hide ScheduleIfIdle;
    ScheduleKeepsSpaces(Removed(w.b, u), lingers);
  }

  lemma BeginStreams(w: World, c: string, path: string, channels: seq<string>, v: nat, client: string)
    requires SpacesInv(w)
    ensures WellTyped(w)
    ensures Streams(BeginCreate(w.b, c, path, channels), v, client) == Streams(w.b, v, client)
  {
    hide SpacesInv, Registered, Shapely;
    TypedOf(w);
    FoundIsLive(w, path);
    match BeginOutcome(w.b, c, path, channels)
    case Joined(u) =>
      ShapedIn(w, u);
      RegisteredStreams(ClaimsOf(w, u), w.b.nextClaim, c, client);
    case _ =>
  }

  lemma FinishStreams(w: World, c: Create, v: nat, client: string)
    requires SpacesInv(w)
    ensures WellTyped(w)
    ensures Streams(FinishCreate(w.b, c.client, c.path, c.channels, w.nextSpace), v, client) == Streams(w.b, v, client)
  {
    hide SpacesInv, Registered, Shapely;
    TypedOf(w);
    FoundIsLive(w, c.path);
    match BeginOutcome(w.b, c.client, c.path, c.channels)
    case Joined(u) =>
      ShapedIn(w, u);
      RegisteredStreams(ClaimsOf(w, u), w.b.nextClaim, c.client, client);
    case Slow =>
      FreshSpace(w);
      EmptyShape(w.b.nextClaim);
      RegisteredStreams(map[], w.b.nextClaim, c.client, client);
    case Rejected(_) =>
  }

  lemma RetireStreams(w: World, c: string, v: nat, client: string)
    requires SpacesInv(w)
    ensures WellTyped(w)
    ensures Streams(Retire(w.b, c), v, client) == if c == client then 0 else Streams(w.b, v, client)
  {
  }

  /** Open streams are conserved: they change by the client's own attach and detach and by
      its retirement, and by nothing else; no create, release, timer or teardown loses one. */
  lemma StreamsAreConserved(hook: bool, ws: seq<World>, es: seq<Event>, i: nat, v: nat, client: string)
    requires IsRun(hook, ws, es) && i < |es|
    ensures Streams(ws[i + 1].b, v, client) == StreamsAfter(ws[i], es[i], v, client)
  {
    hide Step, Enabled, SpacesInv, IdleInv;
    RunKeeps(hook, ws, es, i);
    StreamStep(ws[i], es[i], v, client);
  }

  /** A workspace with an open stream stays mapped, and the stream's claim stays, until the
      client detaches or retires: whatever timers, creates and teardowns run meanwhile. */
  lemma {:induction false} StreamKeepsWorkspace(
      hook: bool, ws: seq<World>, es: seq<Event>, i: nat, j: nat, v: nat, client: string)
    requires IsRun(hook, ws, es) && i <= j < |ws| && Streams(ws[i].b, v, client) > 0
    requires forall k | i <= k < j ::
      !(es[k].Detach? && es[k].ws == v && es[k].client == client) && es[k] != RetireClient(client)
    ensures v in ws[j].b.live && Streams(ws[j].b, v, client) >= Streams(ws[i].b, v, client)
  {
    hide Step, Enabled, IdleInv, WellTyped;
    RunKeeps(hook, ws, es, j);
    if i == j {
    } else {
      StreamKeepsWorkspace(hook, ws, es, i, j - 1, v, client);
      RunKeeps(hook, ws, es, j - 1);
      StreamStep(ws[j - 1], es[j - 1], v, client);
    }
    assert SpaceInv(ws[j], v);
  }

  // ------------------------------------------------------------------------------ expiry

  /** The ids of the claims of one client on one workspace. */
  ghost function ClaimId(b: Backend, ws: nat, client: string): int {
    if IsClaim(b, ws, client) then b.spaces[ws].clients[client].id else -1
  }

  lemma ExpiryStep(w: World, t: Callback, v: nat, client: string)
    requires Inv(w) && t in w.callbacks && IsClaim(w.b, v, client)
    ensures WellTyped(w) && Enabled(w, TimerFires(t))
    ensures var cs := w.b.spaces[v].clients[client]; var b := Step(w, TimerFires(t)).b;
      if t == Callback(v, client, cs.id) && cs.streams == 0 then !IsClaim(b, v, client)
      else IsClaim(b, v, client) && b.spaces[v].clients[client] == cs
  {
    hide IdleInv, IndexInv, BeginCreate, FinishCreate, Retire, Teardown, AttachClient, Detached, Released;
    assert SpaceInv(w, v);
  }

  /** A timer removes a claim if and only if it is the claim object that the timer was armed
      for and no stream is open on it; every other claim stays as it is. */
  lemma ExpiryIsExact(hook: bool, ws: seq<World>, es: seq<Event>, i: nat, t: Callback, v: nat, client: string)
    requires IsRun(hook, ws, es) && i < |es| && es[i] == TimerFires(t) && IsClaim(ws[i].b, v, client)
    ensures var cs := ws[i].b.spaces[v].clients[client]; var b := ws[i + 1].b;
      if t == Callback(v, client, cs.id) && cs.streams == 0 then !IsClaim(b, v, client)
      else IsClaim(b, v, client) && b.spaces[v].clients[client] == cs
  {
    hide Step, WellTyped, SpacesInv, IdleInv;
    RunKeeps(hook, ws, es, i);
    ExpiryStep(ws[i], t, v, client);
  }

  /** A claim that a create re-arms survives every timer that was armed before, even one
      that had fired already and was waiting for the lock. */
  lemma StaleTimersSpareReArmedClaims(
      hook: bool, ws: seq<World>, es: seq<Event>, i: nat, j: nat, t: Callback, v: nat, client: string)
    requires IsRun(hook, ws, es) && i < j < |es| && t in ws[i].callbacks
    requires es[j] == TimerFires(t) && IsClaim(ws[j].b, v, client)
    requires ClaimId(ws[j].b, v, client) >= ws[i].b.nextClaim
    ensures IsClaim(ws[j + 1].b, v, client) && ClaimId(ws[j + 1].b, v, client) == ClaimId(ws[j].b, v, client)
  {
    hide Step, WellTyped, IdleInv;
    RunKeeps(hook, ws, es, i);
    RunKeeps(hook, ws, es, j);
    ExpiryStep(ws[j], t, v, client);
  }

  /** A create that joins an existing workspace on which the client has no open stream
      installs a fresh claim object; one that joins open streams keeps the object. */
  lemma ReArmIsFresh(
      hook: bool, ws: seq<World>, es: seq<Event>, i: nat, v: nat, client: string, path: string, channels: seq<string>)
    requires IsRun(hook, ws, es) && i < |es| && v in ws[i].b.spaces
    requires GetsOut(ws[i], es[i], client, path, channels, Joined(v))
    ensures var b, b' := ws[i].b, ws[i + 1].b;
      if Streams(b, v, client) > 0 then ClaimId(b', v, client) == ClaimId(b, v, client)
      else ClaimId(b', v, client) == b.nextClaim && b'.nextClaim == b.nextClaim + 1
  {
    hide IdleInv, TimerOf, Registered, SpacesInv, Streams, BeginCreate, FinishCreate;
    RunKeeps(hook, ws, es, i);
    FoundIsLive(ws[i], path);
    ReRegistered(ws[i], v, client);
    FreshSpace(ws[i]);
    JoinsRegister(ws[i], client, path, channels, v);
  }

  lemma JoinsRegister(w: World, client: string, path: string, channels: seq<string>, v: nat)
    requires WellTyped(w) && v in w.b.spaces && BeginOutcome(w.b, client, path, channels) == Joined(v)
    ensures forall b |
      b in {BeginCreate(w.b, client, path, channels), FinishCreate(w.b, client, path, channels, w.nextSpace)} ::
      && b.nextClaim == w.b.nextClaim + 1 && v in b.spaces
      && b.spaces[v].clients == Registered(ClaimsOf(w, v), client, w.b.nextClaim)
  {
    hide Registered;
  }

  lemma ReRegistered(w: World, ws: nat, client: string)
    requires SpacesInv(w) && ws in w.b.spaces
    ensures var clients := Registered(ClaimsOf(w, ws), client, w.b.nextClaim);
      && client in clients
      && (Streams(w.b, ws, client) > 0 ==>
            client in ClaimsOf(w, ws) && clients[client].id == ClaimsOf(w, ws)[client].id)
      && (Streams(w.b, ws, client) == 0 ==> clients[client].id == w.b.nextClaim)
  {
    assert SpaceInv(w, ws);
  }

  // ------------------------------------------------------------------------------ retirement

  /** No workspace, mapped or removed, holds a claim of this client. */
  ghost predicate HoldsNothing(b: Backend, client: string) {
    forall v | v in b.spaces :: client !in b.spaces[v].clients
  }

  lemma RetireClears(w: World, client: string)
    requires Inv(w)
    ensures WellTyped(w)
    ensures HoldsNothing(Retire(w.b, client), client) && client in Retire(w.b, client).retired
  {
  }

  /** A claim section adds at most the entry of the client it runs for; a detach path none. */
  lemma SectionsAddOneEntry(clients: map<string, Claim>, n: nat, c: string, id: nat, grace: bool)
    ensures Registered(clients, c, n).Keys == clients.Keys + {c} == Attached(clients, c, n).Keys
    ensures Detached(clients, c, grace).clients.Keys <= clients.Keys
    ensures Released(clients, c).clients.Keys <= clients.Keys
    ensures Expired(clients, c, id).clients.Keys <= clients.Keys
  {
  }

  /** A section on the claims of one workspace that does not add the client. */
  lemma ClaimsGain(w: World, e: Event, client: string)
    requires (e.Attach? || e.Detach? || e.Release? || e.TimerFires?) && Enabled(w, e) && WellTyped(w)
    requires client in w.b.retired && HoldsNothing(w.b, client) && !(e.Attach? && e.client == client)
    ensures client in Step(w, e).b.retired && HoldsNothing(Step(w, e).b, client)
  {
    hide TimerOf, Attached, Detached, Released, Expired, Registered, WithClients, HoldsNothing;
    match e
    case Attach(u, c) =>
      if u in w.b.live {
        SectionsAddOneEntry(ClaimsOf(w, u), w.b.nextClaim, c, 0, true);
        FewerHold(w.b, u, Attached(ClaimsOf(w, u), c, w.b.nextClaim), client);
      }
    case Detach(u, c, grace) =>
      SectionsAddOneEntry(ClaimsOf(w, u), 0, c, 0, grace);
      FewerHold(w.b, u, Detached(ClaimsOf(w, u), c, grace).clients, client);
    case Release(u, c) =>
      SectionsAddOneEntry(ClaimsOf(w, u), 0, c, 0, true);
      FewerHold(w.b, u, Released(ClaimsOf(w, u), c).clients, client);
    case TimerFires(t) =>
      SectionsAddOneEntry(ClaimsOf(w, t.ws), 0, t.client, t.id, true);
      FewerHold(w.b, t.ws, Expired(ClaimsOf(w, t.ws), t.client, t.id).clients, client);
    case _ =>
  }

  lemma FewerHold(b: Backend, ws: nat, clients: map<string, Claim>, client: string)
    requires ws in b.spaces && HoldsNothing(b, client)
    requires client in clients ==> client in b.spaces[ws].clients
    ensures var b' := WithClients(b, ws, clients);
      b'.retired == b.retired && HoldsNothing(b', client) && HoldsNothing(b'.(nextClaim := b.nextClaim + 1), client)
  {
  }

  lemma RetireGains(w: World, c: string, client: string)
    requires SpacesInv(w) && client in w.b.retired && HoldsNothing(w.b, client)
    ensures WellTyped(w)
    ensures client in Retire(w.b, c).retired && HoldsNothing(Retire(w.b, c), client)
  {
  }

  /** A retired client without claims stays so, unless it opens a stream. */
  lemma RetiredGainsNothing(w: World, e: Event, client: string)
    requires Enabled(w, e) && Inv(w) && client in w.b.retired && HoldsNothing(w.b, client)
    requires !(e.Attach? && e.client == client)
    ensures WellTyped(w)
    ensures client in Step(w, e).b.retired && HoldsNothing(Step(w, e).b, client)
  {
    hide SpacesInv, IdleInv, WellTyped, Step, HoldsNothing;
    TypedOf(w);
    if e.Attach? || e.Detach? || e.Release? || e.TimerFires? {
      ClaimsGain(w, e, client);
    } else if e.CreateBegins? {
      CreateStep(w, e);
      BeginGains(w, e.client, e.path, e.channels, client);
    } else if e.CreateFinishes? {
      CreateStep(w, e);
      FinishGains(w, w.creates[e.create], client);
    } else {
      DecidedStep(w, e);
      DecisionGains(w, e, client);
    }
  }

  lemma DecisionGains(w: World, e: Event, client: string)
    requires Enabled(w, e) && SpacesInv(w) && IsDecision(e) && client in w.b.retired && HoldsNothing(w.b, client)
    ensures WellTyped(w)
    ensures client in Decided(w, e).b.retired && HoldsNothing(Decided(w, e).b, client)
  {
    TypedOf(w);
    assert e.TeardownRuns? ==> e.ws in w.b.spaces;
    hide SpacesInv, WellTyped, ScheduleIfIdle, Retire, Orphaned, Idle, Removed, HoldsNothing;
    if e.RetireClient? {
      RetireGains(w, e.client, client);
    } else {
      if e.CreateSettles? { ScheduleKeepsSpaces(w.b.(pending := w.b.pending - 1), e.lingers); }
      if e.TeardownRuns? {
        ScheduleKeepsSpaces(Removed(w.b, e.ws), e.lingers);
        RemovedServer(w.b, e.ws);
      }
      SameHolds(w.b, Decided(w, e).b, client);
    }
  }

  lemma SameHolds(b: Backend, b': Backend, client: string)
    requires b'.spaces == b.spaces && HoldsNothing(b, client)
    ensures HoldsNothing(b', client)
  {
  }

  /** The section that a create runs. */
  lemma CreateStep(w: World, e: Event)
    requires Enabled(w, e) && WellTyped(w)
    ensures e.CreateBegins? ==> Step(w, e).b == BeginCreate(w.b, e.client, e.path, e.channels)
    ensures e.CreateFinishes? ==>
      var c := w.creates[e.create]; Step(w, e).b == FinishCreate(w.b, c.client, c.path, c.channels, w.nextSpace)
  {
    hide BeginCreate, FinishCreate, BeginOutcome, FinishOutcome, TimerOf;
  }

  lemma BeginGains(w: World, c: string, path: string, channels: seq<string>, client: string)
    requires Inv(w) && client in w.b.retired && HoldsNothing(w.b, client)
    ensures WellTyped(w)
    ensures var b := BeginCreate(w.b, c, path, channels); client in b.retired && HoldsNothing(b, client)
  {
  }

  lemma FinishGains(w: World, c: Create, client: string)
    requires Inv(w) && client in w.b.retired && HoldsNothing(w.b, client)
    ensures WellTyped(w)
    ensures var b := FinishCreate(w.b, c.client, c.path, c.channels, w.nextSpace);
      client in b.retired && HoldsNothing(b, client)
  {
    hide SpacesInv, IdleInv, Registered, Attached, Detached, Released, Expired;
    FoundIsLive(w, c.path);
    match BeginOutcome(w.b, c.client, c.path, c.channels)
    case Joined(u) => SectionsAddOneEntry(ClaimsOf(w, u), w.b.nextClaim, c.client, 0, true);
    case Slow => SectionsAddOneEntry(map[], w.b.nextClaim, c.client, 0, true);
    case Rejected(_) =>
  }

  /** Retire beats a lost create: once a client retired, whichever of its creates were in
      their slow init or arrive later, it holds no claim anywhere unless it opens a stream. */
  lemma {:induction false} RetireBeatsCreate(hook: bool, ws: seq<World>, es: seq<Event>, i: nat, j: nat, client: string)
    requires IsRun(hook, ws, es) && i < j < |ws| && es[i] == RetireClient(client)
    requires forall k | i < k < j :: !(es[k].Attach? && es[k].client == client)
    ensures client in ws[j].b.retired && HoldsNothing(ws[j].b, client)
  {
    hide Inv, Enabled, WellTyped, HoldsNothing, Retire;
    RunKeeps(hook, ws, es, j - 1);
    if j == i + 1 {
      RetireClears(ws[i], client);
    } else {
      RetireBeatsCreate(hook, ws, es, i, j - 1, client);
      RetiredGainsNothing(ws[j - 1], es[j - 1], client);
    }
  }

  // ------------------------------------------------------------------------ idle accounting

  lemma AdmittedStays(w: World, e: Event)
    requires Enabled(w, e) && Inv(w)
    ensures WellTyped(w)
    ensures w.admitted || (e.CreateBegins? && Admit(w.b, e.client).None?) ==> Step(w, e).admitted
    ensures Step(w, e).b.hook == w.b.hook
  {
    hide SpacesInv, IdleInv, WellTyped, Step;
    TypedOf(w);
    if e.Attach? || e.Detach? || e.Release? || e.TimerFires? {
      ClaimsFrame(w, e);
    } else if e.CreateBegins? || e.CreateFinishes? {
      CreateServer(w, e);
    } else {
      DecidedStep(w, e);
      DecisionServer(w, e);
    }
  }

  lemma DecisionServer(w: World, e: Event)
    requires Enabled(w, e) && WellTyped(w) && IsDecision(e)
    ensures var w' := Decided(w, e);
      && w'.b.hook == w.b.hook && w'.admitted == w.admitted
      && w'.b.retired == if e.RetireClient? then w.b.retired + {e.client} else w.b.retired
  {
    assert e.TeardownRuns? ==> e.ws in w.b.spaces;
    hide WellTyped, Retire, Orphaned, Idle, Removed, ScheduleIfIdle;
    match e
    case RetireClient(client) => RetireServer(w, client);
    case CreateSettles(_, lingers) => ScheduleKeepsSpaces(w.b.(pending := w.b.pending - 1), lingers);
    case TeardownRuns(u, lingers) =>
      ScheduleKeepsSpaces(Removed(w.b, u), lingers);
      RemovedServer(w.b, u);
    case _ =>
  }

  lemma RemovedServer(b: Backend, ws: nat)
    requires ws in b.spaces
    ensures Removed(b, ws).hook == b.hook && Removed(b, ws).retired == b.retired && Removed(b, ws).spaces == b.spaces
  {
  }

  lemma {:induction false} AdmittedInRun(hook: bool, ws: seq<World>, es: seq<Event>, i: nat, j: nat)
    requires IsRun(hook, ws, es) && i <= j < |ws|
    ensures ws[i].admitted ==> ws[j].admitted
    ensures ws[j].b.hook == hook
  {
    hide Step, Enabled, WellTyped, Inv;
    if j == 0 {
    } else {
      RunKeeps(hook, ws, es, j - 1);
      AdmittedInRun(hook, ws, es, if i < j then i else j - 1, j - 1);
      AdmittedStays(ws[j - 1], es[j - 1]);
    }
  }

  /** Idle accounting is exact: pending counts the creates in flight, a set timer means no
      live workspace and no pending create, and after the first admitted create an empty
      server with nothing pending has a set timer or a set latch. */
  lemma IdleAccountingIsExact(hook: bool, ws: seq<World>, es: seq<Event>, i: nat)
    requires IsRun(hook, ws, es) && i < |ws|
    ensures ws[i].b.pending == |ws[i].creates|
    ensures ws[i].b.armed ==> ws[i].b.live == {} && ws[i].creates == map[]
    ensures (exists k :: 0 <= k < i && es[k].CreateBegins? && Admit(ws[k].b, es[k].client).None?) ==>
      hook && ws[i].b.live == {} && ws[i].creates == map[] ==> ws[i].b.armed || ws[i].b.closing
  {
    hide Step, Enabled, SpacesInv;
    RunKeeps(hook, ws, es, i);
    AdmittedInRun(hook, ws, es, i, i);
    if k :| 0 <= k < i && es[k].CreateBegins? && Admit(ws[k].b, es[k].client).None? {
      RunKeeps(hook, ws, es, k);
      AdmittedStays(ws[k], es[k]);
      AdmittedInRun(hook, ws, es, k + 1, i);
    }
  }
}
