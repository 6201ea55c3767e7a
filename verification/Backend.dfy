/** Backend, Workspace and clientState as objects that are updated in place. Every lock
    section is a method, proved against the function of BackendState that the protocol is
    built on. */
module BackendClass {
  import opened Common
  import S = BackendState
  import opened BackendState

  class ClientState {
    var streams: nat
    var holdTimer: bool
    var released: bool
    var currentSessionID: string
    ghost const id: nat
    ghost const ws: nat
    ghost const client: string

    constructor (streams: nat, holdTimer: bool, session: string, ghost id: nat, ghost ws: nat, ghost client: string)
      ensures Value() == Claim(id, streams, holdTimer, false, session)
      ensures this.id == id && this.ws == ws && this.client == client
    {
      this.streams, this.holdTimer, this.released, this.currentSessionID := streams, holdTimer, false, session;
      this.id, this.ws, this.client := id, ws, client;
    }

    ghost function Value(): Claim
      reads this
    {
      Claim(id, streams, holdTimer, released, currentSessionID)
    }
  }

  class Workspace {
    const id: nat
    const path: string
    const channels: seq<string>
    var clients: map<string, ClientState>

    constructor (id: nat, path: string, channels: seq<string>)
      ensures this.id == id && this.path == path && this.channels == channels && clients == map[]
    {
      this.id, this.path, this.channels, this.clients := id, path, channels, map[];
    }

    ghost function Held(): map<string, Claim>
      reads this, clients.Values
    {
      map c | c in clients :: clients[c].Value()
    }

    /** Every claim object is the one made for this workspace and its key. */
    ghost predicate Owns()
      reads this, clients.Values
    {
      && (forall cs | cs in clients.Values :: cs.ws == id)
      && (forall c | c in clients :: clients[c].client == c)
    }

    /** registerClient and, for a fresh entry, newHeldClient. `n` names a fresh object. */
    method RegisterClient(client: string, ghost n: nat)
      requires Owns()
      modifies this, clients.Values
      ensures Owns() && fresh(clients.Values - old(clients.Values))
      ensures Held() == Registered(old(Held()), client, n)
    {
      var session := "";
      if client in clients {
        var existing := clients[client];
        existing.released := false;
        if !existing.holdTimer { return; }
        session := existing.currentSessionID;
      }
      var cs := new ClientState(0, true, session, n, id, client);
      clients := clients[client := cs];
    }

    /** The clients part of AttachClient. */
    method Attach(client: string, ghost n: nat)
      requires Owns()
      modifies this, clients.Values
      ensures Owns() && fresh(clients.Values - old(clients.Values))
      ensures Held() == Attached(old(Held()), client, n)
    {
      if client !in clients {
        var first := new ClientState(1, false, "", n, id, client);
        clients := clients[client := first];
        return;
      }
      var cs := clients[client];
      cs.holdTimer := false;
      cs.streams := cs.streams + 1;
    }

    /** expireHold, the callback of the timer that was armed for `timer`. */
    method ExpireHold(client: string, timer: ClientState) returns (teardown: bool)
      requires Owns()
      requires forall c | c in clients :: clients[c] == timer <==> clients[c].id == timer.id
      modifies this, timer
      ensures Owns() && clients.Values <= old(clients.Values)
      ensures Left(Held(), teardown) == Expired(old(Held()), client, timer.id)
    {
      if client !in clients { return false; }
      var cs := clients[client];
      if cs != timer || !cs.holdTimer || cs.streams > 0 { return false; }
      cs.holdTimer := false;
      clients := clients - {client};
      teardown := clients == map[];
    }

    method ReleaseHold(client: string) returns (teardown: bool)
      requires Owns()
      modifies this, clients.Values
      ensures Owns() && clients.Values <= old(clients.Values)
      ensures Left(Held(), teardown) == Released(old(Held()), client)
    {
      if client !in clients { return false; }
      var cs := clients[client];
      cs.holdTimer := false;
      teardown := false;
      if cs.streams == 0 {
        clients := clients - {client};
        teardown := clients == map[];
      } else {
        cs.released := true;
      }
    }

    /** detachStream; the result tells the caller to go on to Teardown. */
    method DetachStream(client: string, grace: bool) returns (teardown: bool)
      requires Owns()
      modifies this, clients.Values
      ensures Owns() && clients.Values <= old(clients.Values)
      ensures Left(Held(), teardown) == Detached(old(Held()), client, grace)
    {
      if client !in clients { return false; }
      var cs := clients[client];
      if cs.streams > 0 {
        cs.streams := cs.streams - 1;
      }
      teardown := false;
      if cs.streams == 0 && !cs.holdTimer {
        if grace && !cs.released {
          cs.holdTimer := true;
        } else {
          clients := clients - {client};
          teardown := clients == map[];
          assert Held() == old(Held()) - {client} && Held().Keys == clients.Keys;
          return;
        }
      }
      assert Held() == old(Held())[client := cs.Value()];
    }

    /** What RetireClient does to one workspace. */
    method DropClient(client: string) returns (orphaned: bool)
      requires Owns()
      modifies this
      ensures Owns() && clients.Values <= old(clients.Values)
      ensures Held() == old(Held()) - {client}
      ensures orphaned <==> client in old(Held()) && Held() == map[]
    {
      if client !in clients { return false; }
      clients := clients - {client};
      orphaned := clients == map[];
    }
  }

  ghost function ClaimsOf(spaces: map<nat, Workspace>): set<ClientState>
    reads spaces.Values
  {
    set v, c | v in spaces && c in spaces[v].clients :: spaces[v].clients[c]
  }

  /** The values of workspace objects. */
  ghost function SpacesOf(spaces: map<nat, Workspace>): (values: map<nat, Space>)
    reads spaces.Values, ClaimsOf(spaces)
    ensures values.Keys == spaces.Keys
    ensures forall v | v in spaces :: values[v] == Space(spaces[v].path, spaces[v].channels, spaces[v].Held())
  {
    map v | v in spaces :: Space(spaces[v].path, spaces[v].channels, spaces[v].Held())
  }

  /** Every workspace object is registered under its id and shares no claim with another. */
  ghost predicate Sound(spaces: map<nat, Workspace>)
    reads spaces.Values, ClaimsOf(spaces)
  {
    forall v | v in spaces :: spaces[v].id == v && spaces[v].Owns()
  }

  /** One client's claim on one workspace is gone. */
  ghost function Without(spaces: map<nat, Space>, ws: nat, client: string): map<nat, Space>
    requires ws in spaces
  {
    spaces[ws := spaces[ws].(clients := spaces[ws].clients - {client})]
  }

  /** One client's claims on some workspaces are gone. */
  ghost function Cleared(spaces: map<nat, Space>, done: set<nat>, client: string): map<nat, Space> {
    map v | v in spaces :: if v in done then spaces[v].(clients := spaces[v].clients - {client}) else spaces[v]
  }

  /** Those of the workspaces that one client was last on. */
  ghost function Emptied(spaces: map<nat, Space>, done: set<nat>, client: string): set<nat> {
    set v | v in done && v in spaces && client in spaces[v].clients && spaces[v].clients - {client} == map[]
  }

  lemma ClearedNone(spaces: map<nat, Space>, client: string)
    ensures Cleared(spaces, {}, client) == spaces && Emptied(spaces, {}, client) == {}
  {
  }

  lemma ClearedOne(spaces: map<nat, Space>, done: set<nat>, v: nat, client: string)
    requires v in spaces && v !in done
    ensures v in Cleared(spaces, done, client) && Cleared(spaces, done, client)[v] == spaces[v]
    ensures Cleared(spaces, done + {v}, client) == Without(Cleared(spaces, done, client), v, client)
    ensures Emptied(spaces, done + {v}, client)
         == Emptied(spaces, done, client)
          + if client in spaces[v].clients && spaces[v].clients - {client} == map[] then {v} else {}
  {
  }

  lemma ClearedAll(b: S.Backend, client: string)
    requires forall v | v in b.live :: v in b.spaces
    ensures Cleared(b.spaces, b.live, client) == Retire(b, client).spaces
    ensures Emptied(b.spaces, b.live, client) == Orphaned(b, client)
  {
  }

  /** What a Backend field holds does not matter to the workspace objects. */
  twostate lemma SameObjects(spaces: map<nat, Workspace>)
    requires forall v | v in spaces :: unchanged(spaces[v])
    requires forall v, c | v in spaces && c in spaces[v].clients :: unchanged(spaces[v].clients[c])
    ensures SpacesOf(spaces) == old(SpacesOf(spaces))
    ensures Sound(spaces) == old(Sound(spaces))
  {
  }

  lemma ReplacedEntry(m: map<string, nat>, k: string, v: nat)
    ensures (m - {k})[k := v] == m[k := v]
  {
  }

  lemma NewObject(spaces: map<nat, Workspace>, ws: Workspace)
    requires Sound(spaces) && ws.id !in spaces && ws.clients == map[]
    ensures Sound(spaces[ws.id := ws])
    ensures SpacesOf(spaces[ws.id := ws]) == SpacesOf(spaces)[ws.id := Space(ws.path, ws.channels, map[])]
  {
  }

  class Backend {
    var workspaces: map<nat, Workspace>
    var pathIndex: map<string, nat>
    var pending: int
    var shutdownTimer: bool
    var closing: bool
    var retired: set<string>
    const hasShutdownFn: bool
    const lingers: bool
    ghost var spaces: map<nat, Workspace>  // every workspace that was ever registered
    ghost var nextClaim: nat

    ghost function State(): S.Backend
      reads this, spaces.Values, ClaimsOf(spaces)
    {
      S.Backend(SpacesOf(spaces), workspaces.Keys, pathIndex, pending,
                shutdownTimer, closing, retired, nextClaim, hasShutdownFn)
    }

    ghost predicate Valid()
      reads this, spaces.Values, ClaimsOf(spaces)
    {
      && Sound(spaces)
      && (forall v | v in workspaces :: v in spaces && spaces[v] == workspaces[v])
    }

    constructor (hasShutdownFn: bool, lingers: bool)
      ensures Valid() && State() == NewBackend(hasShutdownFn)
      ensures this.lingers == lingers
    {
      this.hasShutdownFn, this.lingers := hasShutdownFn, lingers;
      workspaces, pathIndex, pending, shutdownTimer, closing, retired := map[], map[], 0, false, false, {};
      spaces, nextClaim := map[], 0;
    }

    method AdmitLocked(client: string) returns (err: Option<Error>)
      ensures err == Admit(State(), client)
      ensures err == if closing then Some(ServerShuttingDown)
                     else if client in retired then Some(ClientRetired) else None
    {
      if closing { return Some(ServerShuttingDown); }
      if client in retired { return Some(ClientRetired); }
      return None;
    }

    /** Only the claims of one workspace differ from the state `b`. */
    lemma OneWorkspace(ws: Workspace, b: map<nat, Space>)
      requires Valid() && ws.id in spaces && spaces[ws.id] == ws
      requires b.Keys == spaces.Keys && forall v | v in spaces && v != ws.id :: SpacesOf(spaces)[v] == b[v]
      requires b[ws.id].path == ws.path && b[ws.id].channels == ws.channels
      ensures SpacesOf(spaces) == b[ws.id := b[ws.id].(clients := ws.Held())]
    {
    }

    /** The entry of the claims map `ws.clients` that AttachClient changes. */
    method AttachTo(ws: Workspace, client: string)
      requires Valid() && ws.id in spaces && spaces[ws.id] == ws
      modifies ws, ws.clients.Values
      ensures Valid()
      ensures SpacesOf(spaces) == old(SpacesOf(spaces))[
        ws.id := Space(ws.path, ws.channels, Attached(old(ws.Held()), client, nextClaim))]
    {
      hide Attached;
      ws.Attach(client, nextClaim);
      OneWorkspace(ws, old(SpacesOf(spaces)));
    }

    method AttachClient(workspaceID: nat, client: string) returns (err: Option<Error>)
      requires Valid()
      modifies this, spaces.Values, ClaimsOf(spaces)
      ensures Valid() && State() == S.AttachClient(old(State()), workspaceID, client)
      ensures err == if workspaceID in old(State()).live then None else Some(WorkspaceNotFound)
    {
      hide Attached, SpacesOf;
      if workspaceID !in workspaces { return Some(WorkspaceNotFound); }
      var ws := workspaces[workspaceID];
      AttachTo(ws, client);
      label Attached:
      nextClaim := nextClaim + 1;
      SameObjects@Attached(spaces);
      return None;
    }

    method DetachStream(ws: Workspace, client: string, grace: bool) returns (teardown: bool)
      requires Valid() && ws.id in spaces && spaces[ws.id] == ws
      modifies ws, ws.clients.Values
      ensures Valid()
      ensures State() == WithClients(old(State()), ws.id, Detached(old(ws.Held()), client, grace).clients)
      ensures teardown == Detached(old(ws.Held()), client, grace).teardown
    {
      hide Detached;
      teardown := ws.DetachStream(client, grace);
      OneWorkspace(ws, old(SpacesOf(spaces)));
    }

    method ReleaseHold(ws: Workspace, client: string) returns (teardown: bool)
      requires Valid() && ws.id in spaces && spaces[ws.id] == ws
      modifies ws, ws.clients.Values
      ensures Valid()
      ensures State() == WithClients(old(State()), ws.id, Released(old(ws.Held()), client).clients)
      ensures teardown == Released(old(ws.Held()), client).teardown
    {
      hide Released;
      teardown := ws.ReleaseHold(client);
      OneWorkspace(ws, old(SpacesOf(spaces)));
    }

    method RegisterIn(ws: Workspace, client: string)
      requires Valid() && ws.id in spaces && spaces[ws.id] == ws
      modifies ws, ws.clients.Values
      ensures Valid()
      ensures SpacesOf(spaces) == old(SpacesOf(spaces))[
        ws.id := Space(ws.path, ws.channels, Registered(old(ws.Held()), client, nextClaim))]
    {
      hide Registered;
      ws.RegisterClient(client, nextClaim);
      OneWorkspace(ws, old(SpacesOf(spaces)));
    }

    method RegisterClient(ws: Workspace, client: string)
      requires Valid() && ws.id in spaces && spaces[ws.id] == ws
      modifies this`nextClaim, ws, ws.clients.Values
      ensures Valid() && State() == Register(old(State()), ws.id, client)
    {
      hide Registered, SpacesOf;
      RegisterIn(ws, client);
      label Registered:
      nextClaim := nextClaim + 1;
      SameObjects@Registered(spaces);
    }

    /** RetireClient's work on one workspace. */
    method DropClient(ws: Workspace, client: string) returns (orphaned: bool)
      requires Valid() && ws.id in spaces && spaces[ws.id] == ws
      modifies ws
      ensures Valid()
      ensures SpacesOf(spaces) == Without(old(SpacesOf(spaces)), ws.id, client)
      ensures orphaned <==> client in old(ws.Held()) && old(ws.Held()) - {client} == map[]
    {
      orphaned := ws.DropClient(client);
      OneWorkspace(ws, old(SpacesOf(spaces)));
    }

    lemma MappedObject(v: nat)
      requires Valid() && v in workspaces
      ensures workspaces[v].id == v && v in spaces && spaces[v] == workspaces[v]
    {
    }

    /** One round of that loop, after the workspaces of `done`. */
    method ClearNext(v: nat, client: string, ghost before: map<nat, Space>, ghost done: set<nat>) returns (orphan: bool)
      requires Valid() && v in workspaces && v !in done
      requires before.Keys == spaces.Keys && SpacesOf(spaces) == Cleared(before, done, client)
      modifies workspaces[v]
      ensures Valid()
      ensures SpacesOf(spaces) == Cleared(before, done + {v}, client)
      ensures Emptied(before, done + {v}, client) == Emptied(before, done, client) + if orphan then {v} else {}
    {
      hide SpacesOf, Cleared, Emptied;
      MappedObject(v);
      ClearedOne(before, done, v, client);
      orphan := DropClient(workspaces[v], client);
    }

    /** RetireClient's loop over the mapped workspaces. */
    method ClearClaims(client: string) returns (orphaned: set<nat>)
      requires Valid()
      modifies spaces.Values
      ensures Valid()
      ensures SpacesOf(spaces) == Cleared(old(SpacesOf(spaces)), workspaces.Keys, client)
      ensures orphaned == Emptied(old(SpacesOf(spaces)), workspaces.Keys, client)
    {
      hide SpacesOf, Cleared, Emptied, Sound, Valid;
      ghost var before, done := SpacesOf(spaces), {};
      orphaned := {};
      var rest := workspaces.Keys;
      ClearedNone(before, client);
      while rest != {}
        invariant Valid() && rest <= workspaces.Keys && done == workspaces.Keys - rest
        invariant before.Keys == spaces.Keys
        invariant SpacesOf(spaces) == Cleared(before, done, client)
        invariant orphaned == Emptied(before, done, client)
        decreases |rest|
      {
        var v :| v in rest;
        MappedObject(v);
        var orphan := ClearNext(v, client, before, done);
        if orphan { orphaned := orphaned + {v}; }
        rest, done := rest - {v}, done + {v};
      }
      assert done == workspaces.Keys;
    }

    /** RetireClient's lock section. The caller tears the orphaned workspaces down. */
    method RetireClient(client: string) returns (orphaned: set<nat>)
      requires Valid()
      modifies this, spaces.Values
      ensures Valid()
      ensures State() == Retire(old(State()), client)
      ensures orphaned == Orphaned(old(State()), client)
    {
      hide SpacesOf, Cleared, Emptied;
      ClearedAll(State(), client);
      retired := retired + {client};
      SameObjects(spaces);
      orphaned := ClearClaims(client);
    }

    method CancelShutdownLocked()
      modifies this`shutdownTimer
      ensures !shutdownTimer
    {
      shutdownTimer := false;
    }

    /** The part that both sections of CreateWorkspace share: join the workspace that the
        index finds, if it is still mapped. */
    method JoinIndexed(client: string, path: string, channels: seq<string>) returns (outcome: Outcome)
      requires Valid() && Admit(State(), client).None?
      modifies this`nextClaim, spaces.Values, ClaimsOf(spaces)
      ensures Valid()
      ensures outcome == BeginOutcome(old(State()), client, path, channels)
      ensures State() == if outcome.Joined? && outcome.ws in old(spaces)
                         then Register(old(State()), outcome.ws, client) else old(State())
    {
      hide Register, SpacesOf;
      if path in pathIndex && pathIndex[path] in workspaces {
        var ws := workspaces[pathIndex[path]];
        if ws.channels != channels { return Rejected(ChannelOptInMismatch); }
        RegisterClient(ws, client);
        return Joined(ws.id);
      }
      return Slow;
    }

    /** The first lock section of CreateWorkspace. On Slow the caller goes on to init. */
    method BeginCreate(client: string, path: string, channels: seq<string>) returns (outcome: Outcome)
      requires Valid()
      modifies this, spaces.Values, ClaimsOf(spaces)
      ensures Valid()
      ensures outcome == BeginOutcome(old(State()), client, path, channels)
      ensures State() == S.BeginCreate(old(State()), client, path, channels)
    {
      hide Register, SpacesOf, Sound;
      var err := AdmitLocked(client);
      if err.Some? { return Rejected(err.value); }
      CancelShutdownLocked();
      SameObjects(spaces);
      outcome := JoinIndexed(client, path, channels);
      if outcome == Slow { CommitToSlowPath(path); }
    }

    method CommitToSlowPath(path: string)
      requires Valid()
      modifies this`pathIndex, this`pending
      ensures Valid() && State() == old(State()).(pathIndex := old(pathIndex) - {path}, pending := old(pending) + 1)
    {
      hide SpacesOf, Sound;
      pathIndex := pathIndex - {path};
      pending := pending + 1;
      SameObjects(spaces);
    }

    method AddToMap(ws: Workspace)
      requires Valid() && ws.id !in spaces && ws.clients == map[]
      modifies this`workspaces, this`spaces
      ensures Valid() && ws.id in spaces && spaces[ws.id] == ws
      ensures State() == old(State()).(spaces := old(State()).spaces[ws.id := Space(ws.path, ws.channels, map[])],
                                       live := old(State()).live + {ws.id})
    {
      hide SpacesOf, Sound, ClaimsOf;
      NewObject(spaces, ws);
      workspaces := workspaces[ws.id := ws];
      spaces := spaces[ws.id := ws];
      SameObjects(spaces);
    }

    /** The index refers to the workspace, in place of a stale entry. */
    method SetIndex(path: string, id: nat)
      requires Valid()
      modifies this`pathIndex
      ensures Valid() && State() == old(State()).(pathIndex := old(pathIndex)[path := id])
    {
      hide SpacesOf, Sound, ClaimsOf;
      pathIndex := (pathIndex - {path})[path := id];
      ReplacedEntry(old(pathIndex), path, id);
      SameObjects(spaces);
    }

    method Install(ws: Workspace)
      requires Valid() && ws.id !in spaces && ws.clients == map[]
      modifies this`workspaces, this`spaces, this`pathIndex
      ensures Valid() && ws.id in spaces && spaces[ws.id] == ws
      ensures State() == old(State()).(spaces := old(State()).spaces[ws.id := Space(ws.path, ws.channels, map[])],
        live := old(State()).live + {ws.id}, pathIndex := old(pathIndex)[ws.path := ws.id])
    {
      hide SpacesOf, Sound, ClaimsOf;
      AddToMap(ws);
      SetIndex(ws.path, ws.id);
    }

    /** The second lock section of CreateWorkspace, for the workspace object that the slow
        init built. The caller discards that object unless it is the one returned. */
    method FinishCreate(client: string, ws: Workspace) returns (outcome: Outcome)
      requires Valid() && ws.id !in spaces && ws.clients == map[]
      modifies this, spaces.Values, ClaimsOf(spaces), ws
      ensures Valid()
      ensures outcome == FinishOutcome(old(State()), client, ws.path, ws.channels, ws.id)
      ensures State() == S.FinishCreate(old(State()), client, ws.path, ws.channels, ws.id)
    {
      hide Register, SpacesOf;
      var err := AdmitLocked(client);
      if err.Some? { return Rejected(err.value); }
      outcome := JoinIndexed(client, ws.path, ws.channels);
      if outcome == Slow {
        Install(ws);
        RegisterClient(ws, client);
        return Joined(ws.id);
      }
    }

    /** The deferred section of a slow create. */
    method SettleCreate() returns (shutdownNow: bool)
      requires Valid()
      modifies this`pending, this`closing, this`shutdownTimer
      ensures Valid() && State() == S.SettleCreate(old(State()), lingers)
      ensures shutdownNow <==> hasShutdownFn && workspaces.Keys == {} && pending == 0 && !lingers
      ensures pending == old(pending) - 1 && closing == (old(closing) || shutdownNow)
    {
      hide SpacesOf, ScheduleIfIdle;
      pending := pending - 1;
      SameObjects(spaces);
      shutdownNow := ScheduleShutdownIfIdleLocked();
    }

    /** scheduleShutdownIfIdleLocked. */
    method ScheduleShutdownIfIdleLocked() returns (shutdownNow: bool)
      requires Valid()
      modifies this`closing, this`shutdownTimer
      ensures Valid()
      ensures State() == ScheduleIfIdle(old(State()), lingers)
      ensures shutdownNow <==> hasShutdownFn && workspaces.Keys == {} && pending == 0 && !lingers
      ensures closing == (old(closing) || shutdownNow)
      ensures shutdownTimer
          == (old(shutdownTimer) || (hasShutdownFn && workspaces.Keys == {} && pending == 0 && lingers))
    {
      hide SpacesOf, Sound;
      if !hasShutdownFn { return false; }
      if workspaces.Keys != {} || pending != 0 { return false; }
      if !lingers {
        closing := true;
        SameObjects(spaces);
        return true;
      }
      if !shutdownTimer { shutdownTimer := true; }
      SameObjects(spaces);
      return false;
    }

    /** teardown's lock section; `done` is false when the workspace was claimed again. */
    method Teardown(ws: Workspace) returns (done: bool, shutdownNow: bool)
      requires Valid() && ws.id in spaces && spaces[ws.id] == ws
      modifies this
      ensures Valid()
      ensures State() == S.Teardown(old(State()), ws.id, lingers)
      ensures done <==> old(ws.clients).Keys == {}
      ensures workspaces.Keys == if done then old(workspaces.Keys) - {ws.id} else old(workspaces.Keys)
      ensures shutdownNow <==> done && hasShutdownFn && workspaces.Keys == {} && pending == 0 && !lingers
      ensures closing == (old(closing) || shutdownNow)
    {
      hide SpacesOf, ScheduleIfIdle;
      assert ws.Held().Keys == ws.clients.Keys;
      if ws.clients.Keys != {} { return false, false; }
      if ws.path in pathIndex && pathIndex[ws.path] == ws.id {
        pathIndex := pathIndex - {ws.path};
      }
      SameObjects(spaces);
      workspaces := workspaces - {ws.id};
      SameObjects(spaces);
      shutdownNow := ScheduleShutdownIfIdleLocked();
      done := true;
    }

    /** maybeShutdown, the callback of the idle timer. */
    method MaybeShutdown() returns (runShutdownFn: bool)
      requires Valid()
      modifies this`shutdownTimer, this`closing
      ensures Valid() && State() == LingerFires(old(State()))
      ensures runShutdownFn <==> workspaces.Keys == {} && pending == 0 && hasShutdownFn
      ensures closing == (old(closing) || (workspaces.Keys == {} && pending == 0)) && !shutdownTimer
    {
      hide SpacesOf, Sound;
      shutdownTimer := false;
      var idle := workspaces.Keys == {} && pending == 0;
      if idle { closing := true; }
      runShutdownFn := idle && hasShutdownFn;
      SameObjects(spaces);
    }

    method ShutdownIfIdle() returns (granted: bool)
      requires Valid()
      modifies this`closing
      ensures Valid() && State() == S.ShutdownIfIdle(old(State()))
      ensures granted <==> workspaces.Keys == {} && pending == 0
      ensures closing == (old(closing) || granted)
    {
      hide SpacesOf, Sound;
      granted := workspaces.Keys == {} && pending == 0;
      if granted { closing := true; }
      SameObjects(spaces);
    }
  }
}
