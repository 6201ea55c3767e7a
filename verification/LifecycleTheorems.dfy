/** The life of one claim, the outcome of every create, and when the server stops: what each
    step of the workspace lifecycle does, stated for one client, one workspace and one path. */
module LifecycleTheorems {
  import opened Common
  import opened BackendState
  import opened BackendProtocol
  import opened BackendTheorems

  // ------------------------------------------------------------------- when the latch is set

  /** No workspace is live and no create is in flight. */
  ghost predicate Quiet(w: World) { w.b.live == {} && w.creates == map[] }

  /** This step decides to stop the server: an explicit Shutdown; a granted request or the idle
      timer on a quiet server; or the section that made a server without lingering quiet. */
  ghost predicate Decides(w: World, e: Event, w': World) {
    match e
    case ShutdownNow => true
    case ShutdownWhenIdle => Quiet(w)
    case IdleTimerFires => Quiet(w)
    case CreateSettles(_, lingers) => Quiet(w') && w.b.hook && !lingers
    case TeardownRuns(ws, lingers) =>
      ws in w.b.spaces && w.b.spaces[ws].clients == map[] && Quiet(w') && w.b.hook && !lingers
    case _ => false
  }

  lemma QuietIsIdle(w: World)
    requires IdleInv(w)
    ensures Quiet(w) <==> Idle(w.b)
  {
  }

  /** Each step latches exactly if it decides to. */
  lemma LatchStep(w: World, e: Event)
    requires Enabled(w, e) && Inv(w)
    ensures WellTyped(w)
    ensures Step(w, e).b.closing <==> w.b.closing || Decides(w, e, Step(w, e))
  {
    hide SpacesInv, IdleInv, WellTyped, Step, Quiet;
    TypedOf(w);
    QuietIsIdle(w);
    StepKeeps(w, e);
    QuietIsIdle(Step(w, e));
    if e.Attach? || e.Detach? || e.Release? || e.TimerFires? {
      ClaimsFrame(w, e);
    } else if e.CreateBegins? || e.CreateFinishes? {
      CreateServer(w, e);
    } else {
      DecidedStep(w, e);
      DecisionStep(w, e);
    }
  }

  lemma DecisionStep(w: World, e: Event)
    requires Enabled(w, e) && WellTyped(w) && IsDecision(e)
    requires (Quiet(w) <==> Idle(w.b)) && (Quiet(Decided(w, e)) <==> Idle(Decided(w, e).b))
    ensures Decided(w, e).b.closing <==> w.b.closing || Decides(w, e, Decided(w, e))
  {
    assert e.TeardownRuns? ==> e.ws in w.b.spaces;
    hide WellTyped, Quiet, Retire, Orphaned, Idle, Removed, ScheduleIfIdle;
    match e
    case RetireClient(client) =>
      RetireServer(w, client);
      SameIdle(w.b, Decided(w, e).b);
    case CreateSettles(_, lingers) => SettleLatch(w.b.(pending := w.b.pending - 1), lingers);
    case TeardownRuns(u, lingers) => SettleLatch(Removed(w.b, u), lingers);
    case _ =>
  }

  lemma SameIdle(b: Backend, b': Backend)
    requires b'.live == b.live && b'.pending == b.pending
    ensures Idle(b') == Idle(b)
  {
  }

  lemma SettleLatch(b: Backend, lingers: bool)
    ensures Idle(ScheduleIfIdle(b, lingers)) == Idle(b)
    ensures ScheduleIfIdle(b, lingers).closing <==> b.closing || (b.hook && Idle(b) && !lingers)
  {
  }

  ghost predicate DecidedAt(ws: seq<World>, es: seq<Event>, k: nat)
    requires k < |es| < |ws|
  {
    Decides(ws[k], es[k], ws[k + 1])
  }

  /** The latch is set if and only if some earlier step decided to stop the server, and it is
      never taken back. */
  lemma {:induction false} LatchHistory(hook: bool, ws: seq<World>, es: seq<Event>, j: nat)
    requires IsRun(hook, ws, es) && j < |ws|
    ensures ws[j].b.closing <==> exists k: nat :: k < j && DecidedAt(ws, es, k)
  {
    hide Inv, Step, Enabled, WellTyped, Decides;
    if j == 0 {
    } else {
      LatchHistory(hook, ws, es, j - 1);
      RunKeeps(hook, ws, es, j - 1);
      LatchStep(ws[j - 1], es[j - 1]);
      assert DecidedAt(ws, es, j - 1) <==> Decides(ws[j - 1], es[j - 1], ws[j]);
    }
  }

  /** A granted request and a firing idle timer latch: on a quiet server every later create is
      refused, in both of its sections, and changes nothing; otherwise the latch is as it was. */
  lemma IdleDecisionLatches(hook: bool, ws: seq<World>, es: seq<Event>, i: nat, j: nat)
    requires IsRun(hook, ws, es) && i < j < |ws| && (es[i] == ShutdownWhenIdle || es[i] == IdleTimerFires)
    ensures !Quiet(ws[i]) ==> ws[i + 1].b.closing == ws[i].b.closing
    ensures Quiet(ws[i]) ==> ws[j].b.closing
    ensures Quiet(ws[i]) && j < |es| && es[j].CreateBegins? ==>
      BeginOutcome(ws[j].b, es[j].client, es[j].path, es[j].channels) == Rejected(ServerShuttingDown)
    ensures Quiet(ws[i]) && j < |es| && (es[j].CreateBegins? || es[j].CreateFinishes?) ==> ws[j + 1].b == ws[j].b
  {
    hide Inv, Step, Enabled, WellTyped, Quiet;
    RunKeeps(hook, ws, es, i);
    LatchStep(ws[i], es[i]);
    if Quiet(ws[i]) {
      LatchStaysInRun(hook, ws, es, i + 1, j);
      if j < |es| && (es[j].CreateBegins? || es[j].CreateFinishes?) {
        LatchedCreatesRegisterNothing(hook, ws, es, j, j);
      }
    }
  }

  /** With lingering, the section that leaves the server quiet arms the idle timer instead. */
  lemma LingeringArms(hook: bool, ws: seq<World>, es: seq<Event>, i: nat)
    requires IsRun(hook, ws, es) && i < |es| && hook && Quiet(ws[i + 1])
    requires (es[i].CreateSettles? && es[i].lingers) ||
             (es[i].TeardownRuns? && es[i].lingers
              && es[i].ws in ws[i].b.spaces && ws[i].b.spaces[es[i].ws].clients == map[])
    ensures ws[i + 1].b.armed && ws[i + 1].b.closing == ws[i].b.closing
  {
    hide SpacesInv, IdleInv;
    RunKeeps(hook, ws, es, i);
    RunKeeps(hook, ws, es, i + 1);
    AdmittedInRun(hook, ws, es, i, i);
    QuietIsIdle(ws[i + 1]);
  }

  // -------------------------------------------------------------- what a create gets out

  /** The live workspace of a path. */
  ghost predicate LivesAt(b: Backend, v: nat, path: string) {
    v in b.live && v in b.spaces && b.spaces[v].path == path
  }

  lemma {:induction false} RetiredHistory(hook: bool, ws: seq<World>, es: seq<Event>, j: nat, client: string)
    requires IsRun(hook, ws, es) && j < |ws|
    ensures client in ws[j].b.retired <==> exists k: nat :: k < j && es[k] == RetireClient(client)
  {
    hide Inv, Step, Enabled, WellTyped;
    if j == 0 {
    } else {
      RetiredHistory(hook, ws, es, j - 1, client);
      RunKeeps(hook, ws, es, j - 1);
      RetiredStep(ws[j - 1], es[j - 1], client);
    }
  }

  lemma RetiredStep(w: World, e: Event, client: string)
    requires Enabled(w, e) && Inv(w)
    ensures WellTyped(w)
    ensures client in Step(w, e).b.retired <==> client in w.b.retired || e == RetireClient(client)
  {
    hide SpacesInv, IdleInv, WellTyped, Step;
    TypedOf(w);
    if e.Attach? || e.Detach? || e.Release? || e.TimerFires? {
      ClaimsFrame(w, e);
    } else if e.CreateBegins? || e.CreateFinishes? {
      CreateServer(w, e);
    } else {
      DecidedStep(w, e);
      DecisionServer(w, e);
    }
  }

  /** What a section of a create must answer: refused once the latch is set, refused for a
      client that retired, joined to the live workspace of the path if there is one with the same
      channels, refused if its channels differ, and otherwise the create goes on: to its slow
      init from the first section, to a fresh workspace from the second. */
  ghost predicate RightAnswer(w: World, e: Event, client: string, path: string, channels: seq<string>, out: Outcome) {
    if w.b.closing then out == Rejected(ServerShuttingDown)
    else if client in w.b.retired then out == Rejected(ClientRetired)
    else if exists v :: LivesAt(w.b, v, path) then
      exists v :: LivesAt(w.b, v, path)
                  && out == if w.b.spaces[v].channels == channels then Joined(v) else Rejected(ChannelOptInMismatch)
    else out == if e.CreateBegins? then Slow else Joined(w.nextSpace)
  }

  /** Every create, in both of its sections and in every run, gets the right answer. */
  lemma CreateAnswers(
      hook: bool, ws: seq<World>, es: seq<Event>, i: nat,
      client: string, path: string, channels: seq<string>, out: Outcome)
    requires IsRun(hook, ws, es) && i < |es| && GetsOut(ws[i], es[i], client, path, channels, out)
    ensures RightAnswer(ws[i], es[i], client, path, channels, out)
    ensures ws[i].nextSpace !in ws[i].b.spaces
  {
    hide Step, IdleInv, Enabled;
    RunKeeps(hook, ws, es, i);
    FreshSpace(ws[i]);
    var b := ws[i].b;
    if v :| LivesAt(b, v, path) { assert SpaceInv(ws[i], v); }
    if path in b.pathIndex { assert LivesAt(b, b.pathIndex[path], path); }
  }

  // ------------------------------------------------------------------------ one claim

  /** The claim that `client` holds on the workspace `v`. */
  ghost function ClaimOf(b: Backend, v: nat, client: string): Option<Claim> {
    if IsClaim(b, v, client) then Some(b.spaces[v].clients[client]) else None
  }

  /** A create re-arms a claim without streams under the fresh identity `n` and keeps its current
      session; a claim with streams only forgets that it was released. */
  function Rejoined(claim: Option<Claim>, n: nat): Claim {
    match claim
    case None => Claim(n, 0, true, false, "")
    case Some(cs) => if cs.streams > 0 then cs.(released := false) else Claim(n, 0, true, false, cs.session)
  }

  /** The create of this step joins `client` to `v`. */
  ghost predicate Joins(w: World, e: Event, v: nat, client: string)
    requires Enabled(w, e)
  {
    || (e.CreateBegins? && e.client == client && BeginOutcome(w.b, client, e.path, e.channels) == Joined(v))
    || (e.CreateFinishes? && w.creates[e.create].client == client
        && FinishOutcome(w.b, client, w.creates[e.create].path, w.creates[e.create].channels, w.nextSpace) == Joined(v))
  }

  /** What becomes of one claim, whose identity, streams, timer, released mark and session are
      all there is to it. */
  ghost function ClaimAfter(w: World, e: Event, v: nat, client: string): Option<Claim>
    requires Enabled(w, e)
  {
    var claim := ClaimOf(w.b, v, client);
    if Joins(w, e, v, client) then Some(Rejoined(claim, w.b.nextClaim))
    else if e == Attach(v, client) && v in w.b.live then
      (match claim
       case None => Some(Claim(w.b.nextClaim, 1, false, false, ""))
       case Some(cs) => Some(cs.(streams := cs.streams + 1, hold := false)))
    else if e == RetireClient(client) then None
    else match claim
      case None => None
      case Some(cs) =>
        match e
        case Detach(u, c, grace) =>
          if u != v || c != client || cs.streams == 0 then claim
          else if cs.streams > 1 then Some(cs.(streams := cs.streams - 1))
          else if grace && !cs.released then Some(cs.(streams := 0, hold := true))
          else None
        case Release(u, c) =>
          if u != v || c != client then claim else if cs.streams == 0 then None else Some(cs.(released := true))
        case TimerFires(t) => if t == Callback(v, client, cs.id) && cs.streams == 0 then None else claim
        case _ => claim
  }

  /** The life of a claim: in every run each step changes each client's claim on each workspace
      exactly so, and no other claim. */
  lemma LifeOfAClaim(hook: bool, ws: seq<World>, es: seq<Event>, i: nat, v: nat, client: string)
    requires IsRun(hook, ws, es) && i < |es|
    ensures Enabled(ws[i], es[i])
    ensures ClaimOf(ws[i + 1].b, v, client) == ClaimAfter(ws[i], es[i], v, client)
  {
    hide Step, Enabled, Inv, WellTyped, ClaimAfter, ClaimOf;
    RunKeeps(hook, ws, es, i);
    ClaimStep(ws[i], es[i], v, client);
  }

  lemma ClaimStep(w: World, e: Event, v: nat, client: string)
    requires Enabled(w, e) && Inv(w)
    ensures WellTyped(w)
    ensures ClaimOf(Step(w, e).b, v, client) == ClaimAfter(w, e, v, client)
  {
    hide SpacesInv, IdleInv, WellTyped, Step, ClaimAfter, ClaimOf;
    match e
    case CreateBegins(_, _, _, _) => BeginClaim(w, e, v, client);
    case CreateFinishes(_) => FinishClaim(w, e, v, client);
    case Attach(_, _) => AttachClaim(w, e, v, client);
    case Detach(_, _, _) => DetachClaim(w, e, v, client);
    case Release(_, _) => ReleaseClaim(w, e, v, client);
    case TimerFires(_) => TimerClaim(w, e, v, client);
    case RetireClient(_) => RetireClaim(w, e, v, client);
    case _ => OtherClaim(w, e, v, client);
  }

  lemma OtherClaim(w: World, e: Event, v: nat, client: string)
    requires IsDecision(e) && !e.RetireClient?
    requires Enabled(w, e) && SpacesInv(w)
    ensures WellTyped(w) && ClaimOf(Step(w, e).b, v, client) == ClaimAfter(w, e, v, client)
  {
    hide SpacesInv, ScheduleIfIdle, ClaimOf;
    TypedOf(w);
    if e.TeardownRuns? { ScheduleKeepsSpaces(Removed(w.b, e.ws), e.lingers); }
    if e.CreateSettles? { ScheduleKeepsSpaces(w.b.(pending := w.b.pending - 1), e.lingers); }
    SameClaims(w.b, Step(w, e).b, v, client);
  }

  ghost function InMap(clients: map<string, Claim>, client: string): Option<Claim> {
    if client in clients then Some(clients[client]) else None
  }

  /** A section that changes the claims of one workspace only. */
  lemma OneMap(b: Backend, b': Backend, ws: nat, clients: map<string, Claim>, v: nat, client: string)
    requires ws in b.spaces && b'.spaces == b.spaces[ws := b.spaces[ws].(clients := clients)]
    ensures ClaimOf(b', v, client) == if v == ws then InMap(clients, client) else ClaimOf(b, v, client)
    ensures ClaimOf(b, ws, client) == InMap(b.spaces[ws].clients, client)
  {
  }

  lemma RegisteredClaim(clients: map<string, Claim>, n: nat, c: string, client: string)
    requires Shapely(clients, n)
    ensures InMap(Registered(clients, c, n), client)
         == if c == client then Some(Rejoined(InMap(clients, client), n)) else InMap(clients, client)
  {
  }

  lemma BeginClaim(w: World, e: Event, v: nat, client: string)
    requires e.CreateBegins? && Enabled(w, e) && SpacesInv(w)
    ensures WellTyped(w) && ClaimOf(Step(w, e).b, v, client) == ClaimAfter(w, e, v, client)
  {
    hide SpacesInv, Registered, Shapely, TimerOf, ClaimOf, InMap, Rejoined;
    TypedOf(w);
    FoundIsLive(w, e.path);
    match BeginOutcome(w.b, e.client, e.path, e.channels)
    case Joined(u) =>
      ShapedIn(w, u);
      RegisteredClaim(ClaimsOf(w, u), w.b.nextClaim, e.client, client);
      OneMap(w.b, Step(w, e).b, u, Registered(ClaimsOf(w, u), e.client, w.b.nextClaim), v, client);
    case _ => SameClaims(w.b, Step(w, e).b, v, client);
  }

  lemma SameClaims(b: Backend, b': Backend, v: nat, client: string)
    requires b'.spaces == b.spaces
    ensures ClaimOf(b', v, client) == ClaimOf(b, v, client)
  {
  }

  lemma FinishClaim(w: World, e: Event, v: nat, client: string)
    requires e.CreateFinishes? && Enabled(w, e) && SpacesInv(w)
    ensures WellTyped(w) && ClaimOf(Step(w, e).b, v, client) == ClaimAfter(w, e, v, client)
  {
    hide SpacesInv, Registered, Shapely, TimerOf, ClaimOf, InMap, Rejoined;
    var c := w.creates[e.create];
    TypedOf(w);
    FoundIsLive(w, c.path);
    match BeginOutcome(w.b, c.client, c.path, c.channels)
    case Joined(u) =>
      ShapedIn(w, u);
      RegisteredClaim(ClaimsOf(w, u), w.b.nextClaim, c.client, client);
      OneMap(w.b, Step(w, e).b, u, Registered(ClaimsOf(w, u), c.client, w.b.nextClaim), v, client);
    case Slow => FreshClaim(w, e, v, client);
    case Rejected(_) => SameClaims(w.b, Step(w, e).b, v, client);
  }

  lemma FreshClaim(w: World, e: Event, v: nat, client: string)
    requires e.CreateFinishes? && Enabled(w, e) && SpacesInv(w)
    requires var c := w.creates[e.create]; BeginOutcome(w.b, c.client, c.path, c.channels) == Slow
    ensures WellTyped(w) && ClaimOf(Step(w, e).b, v, client) == ClaimAfter(w, e, v, client)
  {
    hide SpacesInv, Registered, Shapely, TimerOf, ClaimOf, InMap, Rejoined;
    var c := w.creates[e.create];
    TypedOf(w);
    FreshSpace(w);
    EmptyShape(w.b.nextClaim);
    RegisteredClaim(map[], w.b.nextClaim, c.client, client);
    NewMap(w.b, Step(w, e).b, w.nextSpace, Space(c.path, c.channels, map[]),
           Registered(map[], c.client, w.b.nextClaim), v, client);
  }

  lemma NewMap(b: Backend, b': Backend, ws: nat, space: Space, clients: map<string, Claim>, v: nat, client: string)
    requires ws !in b.spaces && b'.spaces == b.spaces[ws := space.(clients := clients)]
    ensures ClaimOf(b', v, client) == if v == ws then InMap(clients, client) else ClaimOf(b, v, client)
    ensures ClaimOf(b, ws, client) == None == InMap(map[], client)
  {
  }

  lemma AttachClaim(w: World, e: Event, v: nat, client: string)
    requires e.Attach? && Enabled(w, e) && SpacesInv(w)
    ensures WellTyped(w) && ClaimOf(Step(w, e).b, v, client) == ClaimAfter(w, e, v, client)
  {
    hide SpacesInv, Shapely;
    TypedOf(w);
    if e.ws in w.b.live {
      OneMap(w.b, Step(w, e).b, e.ws, Attached(ClaimsOf(w, e.ws), e.client, w.b.nextClaim), v, client);
    }
  }

  /** What the three detach paths leave of one well-shaped claim. */
  lemma LeftClaims(clients: map<string, Claim>, n: nat, c: string, grace: bool, id: nat, client: string)
    requires Shapely(clients, n)
    ensures InMap(Detached(clients, c, grace).clients, client)
         == (match InMap(clients, client)
             case None => None
             case Some(cs) =>
               if c != client || cs.streams == 0 then Some(cs)
               else if cs.streams > 1 then Some(cs.(streams := cs.streams - 1))
               else if grace && !cs.released then Some(cs.(streams := 0, hold := true)) else None)
    ensures InMap(Released(clients, c).clients, client)
         == (match InMap(clients, client)
             case None => None
             case Some(cs) =>
               if c != client then Some(cs) else if cs.streams == 0 then None else Some(cs.(released := true)))
    ensures InMap(Expired(clients, c, id).clients, client)
         == (match InMap(clients, client)
             case None => None
             case Some(cs) => if c == client && id == cs.id && cs.streams == 0 then None else Some(cs))
  {
  }

  lemma DetachClaim(w: World, e: Event, v: nat, client: string)
    requires e.Detach? && Enabled(w, e) && SpacesInv(w)
    ensures WellTyped(w) && ClaimOf(Step(w, e).b, v, client) == ClaimAfter(w, e, v, client)
  {
    hide SpacesInv, Shapely, Detached, ClaimOf, InMap, TimerOf;
    TypedOf(w);
    ShapedIn(w, e.ws);
    LeftClaims(ClaimsOf(w, e.ws), w.b.nextClaim, e.client, e.grace, 0, client);
    OneMap(w.b, Step(w, e).b, e.ws, Detached(ClaimsOf(w, e.ws), e.client, e.grace).clients, v, client);
  }

  lemma ReleaseClaim(w: World, e: Event, v: nat, client: string)
    requires e.Release? && Enabled(w, e) && SpacesInv(w)
    ensures WellTyped(w) && ClaimOf(Step(w, e).b, v, client) == ClaimAfter(w, e, v, client)
  {
    hide SpacesInv, Shapely, Released, ClaimOf, InMap;
    TypedOf(w);
    ShapedIn(w, e.ws);
    LeftClaims(ClaimsOf(w, e.ws), w.b.nextClaim, e.client, false, 0, client);
    OneMap(w.b, Step(w, e).b, e.ws, Released(ClaimsOf(w, e.ws), e.client).clients, v, client);
  }

  lemma TimerClaim(w: World, e: Event, v: nat, client: string)
    requires e.TimerFires? && Enabled(w, e) && SpacesInv(w)
    ensures WellTyped(w) && ClaimOf(Step(w, e).b, v, client) == ClaimAfter(w, e, v, client)
  {
    hide SpacesInv, Shapely, Expired, ClaimOf, InMap;
    var t := e.callback;
    TypedOf(w);
    ShapedIn(w, t.ws);
    LeftClaims(ClaimsOf(w, t.ws), w.b.nextClaim, t.client, false, t.id, client);
    OneMap(w.b, Step(w, e).b, t.ws, Expired(ClaimsOf(w, t.ws), t.client, t.id).clients, v, client);
  }

  lemma RetireClaim(w: World, e: Event, v: nat, client: string)
    requires e.RetireClient? && Enabled(w, e) && SpacesInv(w)
    ensures WellTyped(w) && ClaimOf(Step(w, e).b, v, client) == ClaimAfter(w, e, v, client)
  {
    assert v in w.b.spaces ==> SpaceInv(w, v);
  }

  // ------------------------------------------------------------------- timers and teardowns

  /** Every claim that a timer holds has its callback in flight. */
  ghost predicate TimersArmed(w: World) {
    forall v, c | IsClaim(w.b, v, c) && w.b.spaces[v].clients[c].hold ::
      Callback(v, c, w.b.spaces[v].clients[c].id) in w.callbacks
  }

  lemma CallbacksStep(w: World, e: Event)
    requires Enabled(w, e) && Inv(w)
    ensures WellTyped(w)
    ensures w.callbacks <= Step(w, e).callbacks
    ensures forall v, c | Joins(w, e, v, c) || (e.Detach? && e.ws == v && e.client == c) ::
      TimerOf(Step(w, e).b, v, c) <= Step(w, e).callbacks
  {
    hide SpacesInv, IdleInv, TimerOf, BeginCreate, FinishCreate, Retire, Teardown, AttachClient, Detached, Released,
      Expired, SettleCreate, LingerFires, ShutdownIfIdle, Shutdown, BeginOutcome;
    TypedOf(w);
  }

  lemma ArmedStep(w: World, e: Event)
    requires Enabled(w, e) && Inv(w) && TimersArmed(w)
    ensures WellTyped(w)
    ensures TimersArmed(Step(w, e))
  {
    hide Step, Enabled, Inv, WellTyped, ClaimAfter, TimersArmed;
    StepKeeps(w, e);
    CallbacksStep(w, e);
    var w' := Step(w, e);
    forall v, c | IsClaim(w'.b, v, c) && w'.b.spaces[v].clients[c].hold
      ensures Callback(v, c, w'.b.spaces[v].clients[c].id) in w'.callbacks {
      ClaimStep(w, e, v, c);
      HeldFrom(w, e, w', v, c);
    }
    AllArmed(w');
  }

  lemma AllArmed(w: World)
    requires forall v, c | IsClaim(w.b, v, c) && w.b.spaces[v].clients[c].hold ::
      Callback(v, c, w.b.spaces[v].clients[c].id) in w.callbacks
    ensures TimersArmed(w)
  {
  }

  lemma HeldFrom(w: World, e: Event, w': World, v: nat, c: string)
    requires Enabled(w, e) && TimersArmed(w) && w.callbacks <= w'.callbacks
    requires ClaimOf(w'.b, v, c) == ClaimAfter(w, e, v, c)
    requires Joins(w, e, v, c) || (e.Detach? && e.ws == v && e.client == c) ==> TimerOf(w'.b, v, c) <= w'.callbacks
    requires IsClaim(w'.b, v, c) && w'.b.spaces[v].clients[c].hold
    ensures Callback(v, c, w'.b.spaces[v].clients[c].id) in w'.callbacks
  {
  }

  /** No claim is held by nothing: in every reachable state a claim without open streams has a
      callback in flight that was armed for it and that would remove it. */
  lemma {:induction false} StreamlessClaimsExpire(hook: bool, ws: seq<World>, es: seq<Event>, i: nat)
    requires IsRun(hook, ws, es) && i < |ws|
    ensures forall v, c | IsClaim(ws[i].b, v, c) && Streams(ws[i].b, v, c) == 0 ::
      Callback(v, c, ws[i].b.spaces[v].clients[c].id) in ws[i].callbacks
    ensures TimersArmed(ws[i])
  {
    hide Step, Enabled, Inv, WellTyped;
    if i == 0 {
    } else {
      StreamlessClaimsExpire(hook, ws, es, i - 1);
      RunKeeps(hook, ws, es, i - 1);
      ArmedStep(ws[i - 1], es[i - 1]);
    }
    forall v, c | IsClaim(ws[i].b, v, c) && Streams(ws[i].b, v, c) == 0
      ensures Callback(v, c, ws[i].b.spaces[v].clients[c].id) in ws[i].callbacks {
      ClaimShapeHolds(hook, ws, es, i, v, c);
    }
  }

  /** A teardown takes its workspace off the map if and only if nobody holds a claim on it by
      then, and no other workspace. */
  lemma TeardownIsExact(hook: bool, ws: seq<World>, es: seq<Event>, i: nat, u: nat, lingers: bool, v: nat)
    requires IsRun(hook, ws, es) && i < |es| && es[i] == TeardownRuns(u, lingers)
    ensures u in ws[i].b.spaces
    ensures v in ws[i + 1].b.live <==> v in ws[i].b.live && !(v == u && ws[i].b.spaces[u].clients == map[])
  {
    hide SpacesInv, IdleInv, ScheduleIfIdle;
    RunKeeps(hook, ws, es, i);
    ScheduleKeepsSpaces(Removed(ws[i].b, u), lingers);
  }
}
