/** Workspace lifecycle as a state machine: creates in two lock sections with slow work in
    between, claims held by streams or timers, teardowns in flight, and the idle shutdown.
    Timer callbacks stay deliverable after Stop. */
module BackendProtocol {
  import opened Common
  import opened BackendState

  /** A create past its first section: `settling` once the second one ran or init failed. */
  datatype Create = Create(client: string, path: string, channels: seq<string>, settling: bool)

  /** A grace timer that was armed at some time for claim object `id`. */
  datatype Callback = Callback(ws: nat, client: string, id: nat)

  /** `creates`, `teardowns` and `callbacks` are the goroutines in flight; `everArmed` says
      that an idle timer was armed once; `nextSpace` stands for fresh workspace ids. The
      last two fields are history: a latch was decided by an idle check, and a create was
      admitted. */
  datatype World = World(
    b: Backend, creates: map<nat, Create>, teardowns: multiset<nat>, callbacks: set<Callback>,
    everArmed: bool, nextSpace: nat, idleLatched: bool, admitted: bool)

  function Start(hook: bool): World {
    World(NewBackend(hook), map[], multiset{}, {}, false, 0, false, false)
  }

  datatype Event =
    | CreateBegins(create: nat, client: string, path: string, channels: seq<string>)
    | InitFails(create: nat)
    | CreateFinishes(create: nat)
    | CreateSettles(create: nat, lingers: bool)
    | Attach(ws: nat, client: string)
    | Detach(ws: nat, client: string, grace: bool)
    | Release(ws: nat, client: string)
    | TimerFires(callback: Callback)
    | RetireClient(client: string)
    | TeardownRuns(ws: nat, lingers: bool)
    | IdleTimerFires
    | ShutdownNow
    | ShutdownWhenIdle

  ghost predicate Enabled(w: World, e: Event) {
    match e
    case CreateBegins(k, _, _, _) => k !in w.creates
    case InitFails(k) => k in w.creates && !w.creates[k].settling
    case CreateFinishes(k) => k in w.creates && !w.creates[k].settling
    case CreateSettles(k, _) => k in w.creates && w.creates[k].settling
    case Attach(_, _) => true
    case Detach(ws, _, _) => ws in w.b.spaces
    case Release(ws, _) => ws in w.b.spaces
    case TimerFires(t) => t in w.callbacks
    case RetireClient(_) => true
    case TeardownRuns(ws, _) => ws in w.teardowns
    case IdleTimerFires => w.everArmed
    case ShutdownNow => true
    case ShutdownWhenIdle => true
  }

  /** What every state satisfies so that the sections are defined. */
  ghost predicate WellTyped(w: World) {
    && (forall ws | ws in w.b.live :: ws in w.b.spaces)
    && (forall ws | ws in w.teardowns :: ws in w.b.spaces)
    && (forall t | t in w.callbacks :: t.ws in w.b.spaces)
  }

  /** The callback of the claim that `client` holds in `ws`, if a timer holds it. */
  function TimerOf(b: Backend, ws: nat, client: string): set<Callback> {
    if ws in b.spaces && client in b.spaces[ws].clients && b.spaces[ws].clients[client].hold
    then {Callback(ws, client, b.spaces[ws].clients[client].id)} else {}
  }

  /** A detach path left these claims on a workspace. */
  function WithLeft(w: World, ws: nat, left: Left): World
    requires ws in w.b.spaces
  {
    w.(b := WithClients(w.b, ws, left.clients),
       teardowns := if left.teardown then w.teardowns + multiset{ws} else w.teardowns)
  }

  /** The claims of a workspace object. */
  function ClaimsOf(w: World, ws: nat): map<string, Claim>
    requires ws in w.b.spaces
  {
    w.b.spaces[ws].clients
  }

  /** A section that may arm the idle timer or latch the shutdown because of idleness. */
  function WithIdleDecision(w: World, b: Backend): World {
    w.(b := b, everArmed := w.everArmed || b.armed, idleLatched := w.idleLatched || (b.closing && !w.b.closing))
  }

  ghost function Step(w: World, e: Event): World
    requires Enabled(w, e) && WellTyped(w)
  {
    match e
    case CreateBegins(k, client, path, channels) =>
      var b := BeginCreate(w.b, client, path, channels);
      var w1 := w.(b := b, admitted := w.admitted || Admit(w.b, client).None?);
      (match BeginOutcome(w.b, client, path, channels)
       case Rejected(_) => w1
       case Joined(ws) => w1.(callbacks := w.callbacks + TimerOf(b, ws, client))
       case Slow => w1.(creates := w.creates[k := Create(client, path, channels, false)]))
    case InitFails(k) => w.(creates := w.creates[k := w.creates[k].(settling := true)])
    case CreateFinishes(k) =>
      var c := w.creates[k];
      var b := FinishCreate(w.b, c.client, c.path, c.channels, w.nextSpace);
      var w1 := w.(b := b, creates := w.creates[k := c.(settling := true)], nextSpace := w.nextSpace + 1);
      (match FinishOutcome(w.b, c.client, c.path, c.channels, w.nextSpace)
       case Joined(ws) => w1.(callbacks := w.callbacks + TimerOf(b, ws, c.client))
       case _ => w1)
    case CreateSettles(k, lingers) =>
      WithIdleDecision(w, SettleCreate(w.b, lingers)).(creates := w.creates - {k})
    case Attach(ws, client) => w.(b := AttachClient(w.b, ws, client))
    case Detach(ws, client, grace) =>
      var w1 := WithLeft(w, ws, Detached(ClaimsOf(w, ws), client, grace));
      w1.(callbacks := w.callbacks + TimerOf(w1.b, ws, client))
    case Release(ws, client) => WithLeft(w, ws, Released(ClaimsOf(w, ws), client))
    case TimerFires(t) => WithLeft(w, t.ws, Expired(ClaimsOf(w, t.ws), t.client, t.id))
    case RetireClient(client) =>
      w.(b := Retire(w.b, client), teardowns := w.teardowns + multiset(Orphaned(w.b, client)))
    case TeardownRuns(ws, lingers) =>
      WithIdleDecision(w, Teardown(w.b, ws, lingers)).(teardowns := w.teardowns - multiset{ws})
    case IdleTimerFires => WithIdleDecision(w, LingerFires(w.b))
    case ShutdownNow => w.(b := Shutdown(w.b))
    case ShutdownWhenIdle => WithIdleDecision(w, ShutdownIfIdle(w.b))
  }

  predicate IsDecision(e: Event) {
    || e.InitFails? || e.CreateSettles? || e.RetireClient? || e.TeardownRuns?
    || e.IdleTimerFires? || e.ShutdownNow? || e.ShutdownWhenIdle?
  }

  /** The state after such a step. */
  ghost function Decided(w: World, e: Event): World
    requires Enabled(w, e) && WellTyped(w) && IsDecision(e)
  {
    match e
    case InitFails(k) => w.(creates := w.creates[k := w.creates[k].(settling := true)])
    case CreateSettles(k, lingers) => WithIdleDecision(w, SettleCreate(w.b, lingers)).(creates := w.creates - {k})
    case RetireClient(client) =>
      w.(b := Retire(w.b, client), teardowns := w.teardowns + multiset(Orphaned(w.b, client)))
    case TeardownRuns(ws, lingers) =>
      WithIdleDecision(w, Teardown(w.b, ws, lingers)).(teardowns := w.teardowns - multiset{ws})
    case IdleTimerFires => WithIdleDecision(w, LingerFires(w.b))
    case ShutdownNow => w.(b := Shutdown(w.b))
    case ShutdownWhenIdle => WithIdleDecision(w, ShutdownIfIdle(w.b))
  }

  lemma DecidedStep(w: World, e: Event)
    requires Enabled(w, e) && WellTyped(w) && IsDecision(e)
    ensures Step(w, e) == Decided(w, e)
  {
    hide WithIdleDecision, SettleCreate, Teardown, LingerFires, ShutdownIfIdle, Shutdown, Retire, Orphaned, BeginCreate,
      FinishCreate, AttachClient, TimerOf, WithLeft, Detached, Released, Expired, BeginOutcome, FinishOutcome, Admit;
  }

  ghost predicate IsRun(hook: bool, ws: seq<World>, es: seq<Event>) {
    && |ws| == |es| + 1
    && ws[0] == Start(hook)
    && forall i | 0 <= i < |es| :: WellTyped(ws[i]) && Enabled(ws[i], es[i]) && ws[i + 1] == Step(ws[i], es[i])
  }

  // ------------------------------------------------------------------------ the invariant

  /** A claim is held by live streams and no timer, or by a timer and no streams. */
  predicate ClaimShape(cs: Claim) { (cs.streams > 0) != cs.hold }

  ghost predicate SpaceInv(w: World, ws: nat)
    requires ws in w.b.spaces
  {
    var clients := w.b.spaces[ws].clients;
    && ws < w.nextSpace
    && (forall c | c in clients :: ClaimShape(clients[c]) && clients[c].id < w.b.nextClaim)
    && (ws !in w.b.live ==> clients == map[])
    && (ws in w.b.live ==> w.b.spaces[ws].path in w.b.pathIndex && w.b.pathIndex[w.b.spaces[ws].path] == ws)
    && (ws in w.b.live && clients == map[] ==> ws in w.teardowns)
  }

  ghost predicate IndexInv(b: Backend) {
    forall p | p in b.pathIndex ::
      b.pathIndex[p] in b.live && b.pathIndex[p] in b.spaces && b.spaces[b.pathIndex[p]].path == p
  }

  ghost predicate SpacesInv(w: World) {
    && WellTyped(w)
    && IndexInv(w.b)
    && (forall ws | ws in w.b.spaces :: SpaceInv(w, ws))
    && (forall t | t in w.callbacks :: t.id < w.b.nextClaim)
  }

  /** pending counts the creates in flight; a set timer means idle; an idle server that
      admitted a create has a timer or a latch; an idle latch means idle. */
  ghost predicate IdleInv(w: World) {
    && w.b.pending == |w.creates|
    && (w.b.armed ==> Idle(w.b) && w.everArmed)
    && (w.b.hook && w.admitted && Idle(w.b) ==> w.b.armed || w.b.closing)
    && (w.idleLatched ==> w.b.closing && Idle(w.b))
    && (!w.admitted ==> w.b.spaces == map[] && w.creates == map[])
  }

  ghost predicate Inv(w: World) { SpacesInv(w) && IdleInv(w) }

  lemma StartInv(hook: bool)
    ensures Inv(Start(hook))
  {
  }

  // --------------------------------------------------------------------- workspaces, claims

  /** The claims on one workspace change; the maps do not. */
  lemma ClaimsKept(w: World, w': World, ws: nat, clients: map<string, Claim>)
    requires SpacesInv(w) && ws in w.b.spaces
    requires w'.b.spaces == w.b.spaces[ws := w.b.spaces[ws].(clients := clients)]
    requires w'.b.live == w.b.live && w'.b.pathIndex == w.b.pathIndex && w'.nextSpace == w.nextSpace
    requires w.b.nextClaim <= w'.b.nextClaim
    requires w'.teardowns == w.teardowns || w'.teardowns == w.teardowns + multiset{ws}
    requires forall t | t in w'.callbacks :: t in w.callbacks || (t.ws == ws && t.id < w'.b.nextClaim)
    requires SpaceInv(w', ws)
    ensures SpacesInv(w')
  {
  }

  /** Nothing about workspaces or claims changes. */
  lemma SpacesSame(w: World, w': World)
    requires SpacesInv(w)
    requires w'.b.spaces == w.b.spaces && w'.b.live == w.b.live && w'.b.pathIndex == w.b.pathIndex
    requires w'.nextSpace == w.nextSpace && w'.b.nextClaim == w.b.nextClaim
    requires w'.teardowns == w.teardowns && w'.callbacks == w.callbacks
    ensures SpacesInv(w')
  {
  }

  /** Claims that are well shaped, with identities below `n`. */
  ghost predicate Shapely(clients: map<string, Claim>, n: nat) {
    forall c | c in clients :: ClaimShape(clients[c]) && clients[c].id < n
  }

  /** The claims on one workspace are well shaped. */
  ghost predicate Shaped(b: Backend, ws: nat) {
    ws in b.spaces && Shapely(b.spaces[ws].clients, b.nextClaim)
  }

  lemma RegisteredShape(clients: map<string, Claim>, n: nat, client: string)
    requires Shapely(clients, n)
    ensures Shapely(Registered(clients, client, n), n + 1) && client in Registered(clients, client, n)
  {
  }

  lemma AttachedShape(clients: map<string, Claim>, n: nat, client: string)
    requires Shapely(clients, n)
    ensures Shapely(Attached(clients, client, n), n + 1) && client in Attached(clients, client, n)
  {
  }

  /** What a detach path may do to the claims of a workspace. */
  ghost predicate LeftOk(clients: map<string, Claim>, n: nat, left: Left) {
    && Shapely(left.clients, n)
    && (left.clients == map[] ==> left.teardown || clients == map[])
    && (clients == map[] ==> left.clients == map[])
  }

  lemma DetachedShape(clients: map<string, Claim>, n: nat, client: string, grace: bool)
    requires Shapely(clients, n)
    ensures LeftOk(clients, n, Detached(clients, client, grace))
  {
  }

  lemma ReleasedShape(clients: map<string, Claim>, n: nat, client: string)
    requires Shapely(clients, n)
    ensures LeftOk(clients, n, Released(clients, client))
  {
  }

  lemma ExpiredShape(clients: map<string, Claim>, n: nat, client: string, id: nat)
    requires Shapely(clients, n)
    ensures LeftOk(clients, n, Expired(clients, client, id))
  {
  }

  /** A claim is registered or attached on a mapped workspace. */
  lemma JoinKept(w: World, w': World, ws: nat, client: string, clients: map<string, Claim>)
    requires SpacesInv(w) && ws in w.b.live && ws in w.b.spaces
    requires Shapely(clients, w.b.nextClaim + 1) && client in clients
    requires w'.b.spaces == w.b.spaces[ws := w.b.spaces[ws].(clients := clients)]
    requires w'.b.nextClaim == w.b.nextClaim + 1 && w'.b.live == w.b.live && w'.b.pathIndex == w.b.pathIndex
    requires w'.nextSpace == w.nextSpace && w'.teardowns == w.teardowns
    requires forall t | t in w'.callbacks :: t in w.callbacks || (t.ws == ws && t.id < w'.b.nextClaim)
    ensures SpacesInv(w')
  {
  }

  lemma ShapedIn(w: World, ws: nat)
    requires SpacesInv(w) && ws in w.b.spaces
    ensures Shaped(w.b, ws)
  {
  }

  lemma CreateBeginsKept(w: World, e: Event)
    requires e.CreateBegins? && Enabled(w, e) && SpacesInv(w)
    ensures SpacesInv(Step(w, e))
  {
    hide SpacesInv, Registered, Shapely, TimerOf;
    FoundIsLive(w, e.path);
    var w' := Step(w, e);
    match BeginOutcome(w.b, e.client, e.path, e.channels)
    case Rejected(_) => SpacesSame(w, w');
    case Joined(ws) =>
      ShapedIn(w, ws);
      RegisteredShape(ClaimsOf(w, ws), w.b.nextClaim, e.client);
      TimerBound(w'.b, ws, e.client);
      JoinKept(w, w', ws, e.client, Registered(ClaimsOf(w, ws), e.client, w.b.nextClaim));
    case Slow =>
      assert w.b.pathIndex - {e.path} == w.b.pathIndex;
      SpacesSame(w, w');
  }

  /** The index never refers to a workspace that is gone. */
  lemma FoundIsLive(w: World, path: string)
    requires SpacesInv(w)
    ensures WellTyped(w)
    ensures Indexed(w.b, path) == if path in w.b.pathIndex then Some(w.b.pathIndex[path]) else None
    ensures path in w.b.pathIndex ==> w.b.pathIndex[path] in w.b.live && w.b.pathIndex[path] in w.b.spaces
  {
  }

  lemma CreateFinishesKept(w: World, e: Event)
    requires e.CreateFinishes? && Enabled(w, e) && SpacesInv(w)
    ensures SpacesInv(Step(w, e))
  {
    hide SpacesInv, Registered, Shapely, TimerOf;
    var c := w.creates[e.create];
    FoundIsLive(w, c.path);
    var w' := Step(w, e);
    var w1 := w.(nextSpace := w.nextSpace + 1);
    MoreIds(w);
    match BeginOutcome(w.b, c.client, c.path, c.channels)
    case Rejected(_) => SpacesSame(w1, w');
    case Joined(ws) =>
      ShapedIn(w, ws);
      RegisteredShape(ClaimsOf(w, ws), w.b.nextClaim, c.client);
      TimerBound(w'.b, ws, c.client);
      JoinKept(w1, w', ws, c.client, Registered(ClaimsOf(w, ws), c.client, w.b.nextClaim));
    case Slow =>
      EmptyShape(w.b.nextClaim);
      RegisteredShape(map[], w.b.nextClaim, c.client);
      TimerBound(w'.b, w.nextSpace, c.client);
      NewSpaceKept(w, w', c, Registered(map[], c.client, w.b.nextClaim));
  }

  lemma EmptyShape(n: nat)
    ensures Shapely(map[], n)
  {
  }

  lemma MoreIds(w: World)
    requires SpacesInv(w)
    ensures SpacesInv(w.(nextSpace := w.nextSpace + 1))
  {
  }

  /** A create registers its fresh workspace together with the client's claim. */
  lemma NewSpaceKept(w: World, w': World, c: Create, clients: map<string, Claim>)
    requires SpacesInv(w) && c.path !in w.b.pathIndex && w'.nextSpace == w.nextSpace + 1
    requires Shapely(clients, w.b.nextClaim + 1) && c.client in clients
    requires w'.b.spaces == w.b.spaces[w.nextSpace := Space(c.path, c.channels, clients)]
    requires w'.b.nextClaim == w.b.nextClaim + 1 && w'.b.live == w.b.live + {w.nextSpace}
    requires w'.b.pathIndex == w.b.pathIndex[c.path := w.nextSpace] && w'.teardowns == w.teardowns
    requires forall t | t in w'.callbacks :: t in w.callbacks || (t.ws == w.nextSpace && t.id < w'.b.nextClaim)
    ensures SpacesInv(w')
  {
    assert forall v | v in w.b.spaces :: SpaceInv(w, v) && v < w.nextSpace;
    forall v | v in w'.b.spaces ensures SpaceInv(w', v) {
      if v in w.b.spaces { assert SpaceInv(w, v); }
    }
  }

  lemma AttachKept(w: World, e: Event)
    requires e.Attach? && Enabled(w, e) && SpacesInv(w)
    ensures SpacesInv(Step(w, e))
  {
    hide SpacesInv, Attached, Shapely;
    FoundIsLive(w, "");
    if e.ws in w.b.live {
      ShapedIn(w, e.ws);
      AttachedShape(ClaimsOf(w, e.ws), w.b.nextClaim, e.client);
      JoinKept(w, Step(w, e), e.ws, e.client, Attached(ClaimsOf(w, e.ws), e.client, w.b.nextClaim));
    }
  }

  /** A section of a detach path keeps the workspaces consistent. */
  lemma LeftKept(w: World, ws: nat, left: Left, timers: set<Callback>)
    requires SpacesInv(w) && ws in w.b.spaces && LeftOk(ClaimsOf(w, ws), w.b.nextClaim, left)
    requires forall t | t in timers :: t.ws == ws && t.id < w.b.nextClaim
    ensures SpacesInv(WithLeft(w, ws, left).(callbacks := w.callbacks + timers))
  {
    var w' := WithLeft(w, ws, left).(callbacks := w.callbacks + timers);
    assert SpaceInv(w, ws);
    ClaimsKept(w, w', ws, left.clients);
  }

  lemma TimerBound(b: Backend, ws: nat, client: string)
    requires Shaped(b, ws)
    ensures forall t | t in TimerOf(b, ws, client) :: t.ws == ws && t.id < b.nextClaim
  {
  }

  lemma DetachKept(w: World, e: Event)
    requires e.Detach? && Enabled(w, e) && SpacesInv(w)
    ensures SpacesInv(Step(w, e))
  {
    hide SpacesInv, Detached, Shapely, TimerOf;
    var left := Detached(ClaimsOf(w, e.ws), e.client, e.grace);
    ShapedIn(w, e.ws);
    DetachedShape(ClaimsOf(w, e.ws), w.b.nextClaim, e.client, e.grace);
    var b := WithLeft(w, e.ws, left).b;
    TimerBound(b, e.ws, e.client);
    LeftKept(w, e.ws, left, TimerOf(b, e.ws, e.client));
  }

  lemma ReleaseKept(w: World, e: Event)
    requires e.Release? && Enabled(w, e) && SpacesInv(w)
    ensures SpacesInv(Step(w, e))
  {
    hide SpacesInv, Released, Shapely;
    ShapedIn(w, e.ws);
    ReleasedShape(ClaimsOf(w, e.ws), w.b.nextClaim, e.client);
    LeftKept(w, e.ws, Released(ClaimsOf(w, e.ws), e.client), {});
    assert w.callbacks + {} == w.callbacks;
  }

  lemma TimerFiresKept(w: World, e: Event)
    requires e.TimerFires? && Enabled(w, e) && SpacesInv(w)
    ensures SpacesInv(Step(w, e))
  {
    hide SpacesInv, Expired, Shapely;
    var t := e.callback;
    TypedOf(w);
    ShapedIn(w, t.ws);
    ExpiredShape(ClaimsOf(w, t.ws), w.b.nextClaim, t.client, t.id);
    LeftKept(w, t.ws, Expired(ClaimsOf(w, t.ws), t.client, t.id), {});
    assert w.callbacks + {} == w.callbacks;
  }

  lemma TypedOf(w: World)
    requires SpacesInv(w)
    ensures WellTyped(w)
  {
  }

  lemma RetireKept(w: World, e: Event)
    requires e.RetireClient? && Enabled(w, e) && SpacesInv(w)
    ensures SpacesInv(Step(w, e))
  {
    var w' := Step(w, e);
    forall v | v in w'.b.spaces ensures SpaceInv(w', v) {
      assert SpaceInv(w, v);
      if v in w.b.live && w'.b.spaces[v].clients == map[] && w.b.spaces[v].clients != map[] {
        assert v in Orphaned(w.b, e.client);
      }
    }
  }

  lemma TeardownKept(w: World, e: Event)
    requires e.TeardownRuns? && Enabled(w, e) && SpacesInv(w)
    ensures SpacesInv(Step(w, e))
  {
    hide ScheduleIfIdle;
    var w' := Step(w, e);
    TypedOf(w);
    ScheduleKeepsSpaces(Removed(w.b, e.ws), e.lingers);
    if w.b.spaces[e.ws].clients != map[] {
      TicketUsed(w, w', e.ws);
    } else {
      RemovalKept(w, w', e.ws);
    }
  }

  lemma ScheduleKeepsSpaces(b: Backend, lingers: bool)
    ensures var b' := ScheduleIfIdle(b, lingers);
      && b'.spaces == b.spaces && b'.live == b.live && b'.pathIndex == b.pathIndex
      && b'.nextClaim == b.nextClaim && b'.pending == b.pending && b'.retired == b.retired && b'.hook == b.hook
  {
  }

  /** An aborted teardown is over; its workspace has claims again. */
  lemma TicketUsed(w: World, w': World, ws: nat)
    requires SpacesInv(w) && ws in w.b.spaces && w.b.spaces[ws].clients != map[] && w'.b == w.b
    requires w'.teardowns == w.teardowns - multiset{ws} && w'.callbacks == w.callbacks && w'.nextSpace == w.nextSpace
    ensures SpacesInv(w')
  {
  }

  lemma RemovalKept(w: World, w': World, ws: nat)
    requires SpacesInv(w) && ws in w.b.spaces && w.b.spaces[ws].clients == map[]
    requires var b := Removed(w.b, ws);
      w'.b.spaces == b.spaces && w'.b.live == b.live && w'.b.pathIndex == b.pathIndex && w'.b.nextClaim == b.nextClaim
    requires w'.teardowns == w.teardowns - multiset{ws} && w'.callbacks == w.callbacks && w'.nextSpace == w.nextSpace
    ensures SpacesInv(w')
  {
    assert SpaceInv(w, ws);
    forall v | v in w'.b.spaces ensures SpaceInv(w', v) { assert SpaceInv(w, v); }
  }

  lemma SpacesKept(w: World, e: Event)
    requires Enabled(w, e) && SpacesInv(w)
    ensures SpacesInv(Step(w, e))
  {
    hide SpacesInv;
    TypedOf(w);
    match e
    case CreateBegins(_, _, _, _) => CreateBeginsKept(w, e);
    case CreateFinishes(_) => CreateFinishesKept(w, e);
    case Attach(_, _) => AttachKept(w, e);
    case Detach(_, _, _) => DetachKept(w, e);
    case Release(_, _) => ReleaseKept(w, e);
    case TimerFires(_) => TimerFiresKept(w, e);
    case RetireClient(_) => RetireKept(w, e);
    case TeardownRuns(_, _) => TeardownKept(w, e);
    case _ => SpacesSame(w, Step(w, e));
  }

  // ------------------------------------------------------------------------- idle shutdown

  /** What the idle decisions read is the same in both states. */
  ghost predicate SameServer(b: Backend, b': Backend) {
    && b'.live == b.live && b'.pending == b.pending && b'.armed == b.armed
    && b'.closing == b.closing && b'.hook == b.hook && b'.spaces.Keys == b.spaces.Keys
  }

  lemma IdleSame(w: World, w': World)
    requires IdleInv(w) && SameServer(w.b, w'.b)
    requires w'.creates.Keys == w.creates.Keys
    requires w'.everArmed == w.everArmed
    requires w'.idleLatched == w.idleLatched && w'.admitted == w.admitted
    ensures IdleInv(w')
  {
  }

  lemma BeginCounts(w: World, client: string, path: string, channels: seq<string>)
    requires SpacesInv(w) && Admit(w.b, client).None?
    ensures WellTyped(w)
    ensures var b := BeginCreate(w.b, client, path, channels);
      && !b.armed && b.live == w.b.live && b.closing == w.b.closing && b.hook == w.b.hook
      && (BeginOutcome(w.b, client, path, channels) == Slow ==> b.pending == w.b.pending + 1)
      && (BeginOutcome(w.b, client, path, channels) != Slow ==> b.pending == w.b.pending && w.b.live != {})
  {
  }

  lemma CreateBeginsIdle(w: World, e: Event)
    requires e.CreateBegins? && Enabled(w, e) && Inv(w)
    ensures IdleInv(Step(w, e))
  {
    hide SpacesInv, TimerOf, BeginCreate, BeginOutcome, FinishCreate, FinishOutcome, Teardown, Retire, AttachClient;
    TypedOf(w);
    if Admit(w.b, e.client).None? {
      BeginCounts(w, e.client, e.path, e.channels);
      if BeginOutcome(w.b, e.client, e.path, e.channels) == Slow {
        assert Step(w, e).creates.Keys == w.creates.Keys + {e.create};
      }
    } else {
      RefusedBegin(w.b, e.client, e.path, e.channels) by { assert WellTyped(w); }
    }
  }

  lemma RefusedBegin(b: Backend, client: string, path: string, channels: seq<string>)
    requires Admit(b, client).Some? && forall ws | ws in b.live :: ws in b.spaces
    ensures BeginCreate(b, client, path, channels) == b && BeginOutcome(b, client, path, channels).Rejected?
  {
  }

  lemma CreateFinishesIdle(w: World, e: Event)
    requires e.CreateFinishes? && Enabled(w, e) && Inv(w)
    ensures IdleInv(Step(w, e))
  {
  }

  lemma CreateSettlesIdle(w: World, e: Event)
    requires e.CreateSettles? && Enabled(w, e) && Inv(w)
    ensures IdleInv(Step(w, e))
  {
  }

  lemma TeardownIdle(w: World, e: Event)
    requires e.TeardownRuns? && Enabled(w, e) && Inv(w)
    ensures IdleInv(Step(w, e))
  {
  }

  lemma IdleKept(w: World, e: Event)
    requires Enabled(w, e) && Inv(w)
    ensures WellTyped(w)
    ensures IdleInv(Step(w, e))
  {
    hide SpacesInv, IdleInv;
    TypedOf(w);
    match e
    case CreateBegins(_, _, _, _) => CreateBeginsIdle(w, e);
    case CreateFinishes(_) => CreateFinishesIdle(w, e);
    case CreateSettles(_, _) => CreateSettlesIdle(w, e);
    case TeardownRuns(_, _) => TeardownIdle(w, e);
    case IdleTimerFires => DecisionIdle(w, e);
    case ShutdownNow => DecisionIdle(w, e);
    case ShutdownWhenIdle => DecisionIdle(w, e);
    case InitFails(k) =>
      assert Step(w, e).creates.Keys == w.creates.Keys;
      IdleSame(w, Step(w, e));
    case RetireClient(_) =>
      assert Step(w, e).b.spaces.Keys == w.b.spaces.Keys;
      IdleSame(w, Step(w, e));
    case _ => ClaimsIdle(w, e);
  }

  lemma DecisionIdle(w: World, e: Event)
    requires (e.IdleTimerFires? || e.ShutdownNow? || e.ShutdownWhenIdle?) && Enabled(w, e) && Inv(w)
    ensures IdleInv(Step(w, e))
  {
  }

  lemma ClaimsIdle(w: World, e: Event)
    requires (e.Attach? || e.Detach? || e.Release? || e.TimerFires?) && Enabled(w, e) && Inv(w)
    ensures IdleInv(Step(w, e))
  {
  }

  lemma ClaimsFrame(w: World, e: Event)
    requires (e.Attach? || e.Detach? || e.Release? || e.TimerFires?) && Enabled(w, e) && WellTyped(w)
    ensures var w' := Step(w, e);
      && SameServer(w.b, w'.b) && w'.b.retired == w.b.retired && w'.creates == w.creates
      && w'.everArmed == w.everArmed && w'.idleLatched == w.idleLatched && w'.admitted == w.admitted
  {
  }

  lemma StepKeeps(w: World, e: Event)
    requires Enabled(w, e) && Inv(w)
    ensures WellTyped(w)
    ensures Inv(Step(w, e))
  {
    hide SpacesInv, IdleInv, Step;
    TypedOf(w);
    SpacesKept(w, e);
    IdleKept(w, e);
  }

  lemma {:induction false} RunKeeps(hook: bool, ws: seq<World>, es: seq<Event>, i: nat)
    requires IsRun(hook, ws, es) && i < |ws|
    ensures Inv(ws[i])
  {
    hide Inv, Step, Enabled, WellTyped;
    if i == 0 {
      StartInv(hook);
    } else {
      RunKeeps(hook, ws, es, i - 1);
      StepKeeps(ws[i - 1], es[i - 1]);
    }
  }
}
