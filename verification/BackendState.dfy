/** The Backend's bookkeeping of workspaces and client claims as a value, and one function
    per lock section of internal/backend/backend.go. */
module BackendState {
  import opened Common

  /** A clientState object. `id` is its identity, which expireHold compares; `hold` says
      that holdTimer is set. */
  datatype Claim = Claim(id: nat, streams: nat, hold: bool, released: bool, session: string)

  /** A Workspace object. It outlives its removal from the workspace map: detach paths and
      timer callbacks still hold a pointer to it. */
  datatype Space = Space(path: string, channels: seq<string>, clients: map<string, Claim>)

  /** `spaces` holds every workspace object that was ever registered, `live` the keys of
      the workspace map, `armed` that shutdownTimer is set, `hook` that shutdownFn is. */
  datatype Backend = Backend(
    spaces: map<nat, Space>, live: set<nat>, pathIndex: map<string, nat>,
    pending: int, armed: bool, closing: bool, retired: set<string>, nextClaim: nat, hook: bool)

  function NewBackend(hook: bool): Backend { Backend(map[], {}, map[], 0, false, false, {}, 0, hook) }

  datatype Error = ServerShuttingDown | ClientRetired | ChannelOptInMismatch | WorkspaceNotFound

  function Admit(b: Backend, client: string): Option<Error> {
    if b.closing then Some(ServerShuttingDown)
    else if client in b.retired then Some(ClientRetired)
    else None
  }

  function WithClients(b: Backend, ws: nat, clients: map<string, Claim>): Backend
    requires ws in b.spaces
  {
    b.(spaces := b.spaces[ws := b.spaces[ws].(clients := clients)])
  }

  /** registerClient on the claims of a workspace: a fresh timer-held claim with identity
      `id`, unless live streams already hold one. */
  function Registered(clients: map<string, Claim>, client: string, id: nat): map<string, Claim> {
    if client !in clients then clients[client := Claim(id, 0, true, false, "")]
    else if clients[client].hold then clients[client := Claim(id, 0, true, false, clients[client].session)]
    else clients[client := clients[client].(released := false)]
  }

  function Register(b: Backend, ws: nat, client: string): Backend
    requires ws in b.spaces
  {
    WithClients(b, ws, Registered(b.spaces[ws].clients, client, b.nextClaim)).(nextClaim := b.nextClaim + 1)
  }

  // --------------------------------------------------------------------- CreateWorkspace

  datatype Outcome = Rejected(error: Error) | Joined(ws: nat) | Slow

  /** The workspace that the index finds for a path, if it is still mapped. */
  function Indexed(b: Backend, path: string): Option<nat> {
    if path in b.pathIndex && b.pathIndex[path] in b.live then Some(b.pathIndex[path]) else None
  }

  /** The outcome of CreateWorkspace's first lock section. */
  function BeginOutcome(b: Backend, client: string, path: string, channels: seq<string>): Outcome {
    if Admit(b, client).Some? then Rejected(Admit(b, client).value)
    else match Indexed(b, path)
      case Some(ws) =>
        if ws in b.spaces && b.spaces[ws].channels != channels then Rejected(ChannelOptInMismatch) else Joined(ws)
      case None => Slow
  }

  function BeginCreate(b: Backend, client: string, path: string, channels: seq<string>): Backend
    requires forall ws | ws in b.live :: ws in b.spaces
  {
    if Admit(b, client).Some? then b
    else
      var b1 := b.(armed := false);
      match BeginOutcome(b, client, path, channels)
      case Rejected(_) => b1
      case Joined(ws) => Register(b1, ws, client)
      case Slow => b1.(pathIndex := b1.pathIndex - {path}, pending := b1.pending + 1)
  }

  /** The outcome of the second section; `id` is the fresh workspace. */
  function FinishOutcome(b: Backend, client: string, path: string, channels: seq<string>, id: nat): Outcome {
    match BeginOutcome(b, client, path, channels)
    case Slow => Joined(id)
    case other => other
  }

  function FinishCreate(b: Backend, client: string, path: string, channels: seq<string>, id: nat): Backend
    requires forall ws | ws in b.live :: ws in b.spaces
  {
    match BeginOutcome(b, client, path, channels)
    case Rejected(_) => b
    case Joined(ws) => Register(b, ws, client)
    case Slow =>
      Register(b.(spaces := b.spaces[id := Space(path, channels, map[])], live := b.live + {id},
                  pathIndex := b.pathIndex[path := id]), id, client)
  }

  /** The deferred section of a slow create. */
  function SettleCreate(b: Backend, lingers: bool): Backend {
    ScheduleIfIdle(b.(pending := b.pending - 1), lingers)
  }

  // -------------------------------------------------------------- streams, holds, timers

  function Attached(clients: map<string, Claim>, client: string, id: nat): map<string, Claim> {
    if client !in clients then clients[client := Claim(id, 1, false, false, "")]
    else clients[client := clients[client].(hold := false, streams := clients[client].streams + 1)]
  }

  function AttachClient(b: Backend, ws: nat, client: string): Backend
    requires ws in b.live ==> ws in b.spaces
  {
    if ws !in b.live then b
    else WithClients(b, ws, Attached(b.spaces[ws].clients, client, b.nextClaim)).(nextClaim := b.nextClaim + 1)
  }

  /** What a detach path leaves: the claims, and whether the caller goes on to tear down. */
  datatype Left = Left(clients: map<string, Claim>, teardown: bool)

  function Dropped(clients: map<string, Claim>, client: string): Left {
    Left(clients - {client}, clients - {client} == map[])
  }

  /** expireHold, for a timer that was armed for the claim object `id`. */
  function Expired(clients: map<string, Claim>, client: string, id: nat): Left {
    if client !in clients || clients[client].id != id || !clients[client].hold || clients[client].streams > 0
    then Left(clients, false)
    else Dropped(clients, client)
  }

  /** releaseHoldLocked. */
  function Released(clients: map<string, Claim>, client: string): Left {
    if client !in clients then Left(clients, false)
    else if clients[client].streams == 0 then Dropped(clients, client)
    else Left(clients[client := clients[client].(hold := false, released := true)], false)
  }

  /** detachStream; `grace` says that the detach grace is positive. */
  function Detached(clients: map<string, Claim>, client: string, grace: bool): Left {
    if client !in clients then Left(clients, false)
    else
      var cs := clients[client].(streams := if clients[client].streams > 0 then clients[client].streams - 1 else 0);
      if cs.streams != 0 || cs.hold then Left(clients[client := cs], false)
      else if grace && !cs.released then Left(clients[client := cs.(hold := true)], false)
      else Dropped(clients, client)
  }

  /** RetireClient's section: the client is refused from now on, and loses every claim. */
  function Retire(b: Backend, client: string): Backend
    requires forall ws | ws in b.live :: ws in b.spaces
  {
    b.(retired := b.retired + {client},
       spaces := map ws | ws in b.spaces ::
         if ws in b.live then b.spaces[ws].(clients := b.spaces[ws].clients - {client}) else b.spaces[ws])
  }

  /** The workspaces that RetireClient goes on to tear down. */
  function Orphaned(b: Backend, client: string): set<nat>
    requires forall ws | ws in b.live :: ws in b.spaces
  {
    set ws | ws in b.live && client in b.spaces[ws].clients && b.spaces[ws].clients - {client} == map[]
  }

  // ------------------------------------------------------------------ teardown, shutdown

  predicate Idle(b: Backend) { b.live == {} && b.pending == 0 }

  function ScheduleIfIdle(b: Backend, lingers: bool): Backend {
    if !b.hook || !Idle(b) then b
    else if !lingers then b.(closing := true)
    else b.(armed := true)
  }

  /** The state between teardown's removal and its idle check. */
  function Removed(b: Backend, ws: nat): Backend
    requires ws in b.spaces
  {
    var path := b.spaces[ws].path;
    b.(pathIndex := if path in b.pathIndex && b.pathIndex[path] == ws then b.pathIndex - {path} else b.pathIndex,
       live := b.live - {ws})
  }

  /** teardown's section, with its re-check that nobody claimed the workspace again. */
  function Teardown(b: Backend, ws: nat, lingers: bool): Backend
    requires ws in b.spaces
  {
    if b.spaces[ws].clients != map[] then b else ScheduleIfIdle(Removed(b, ws), lingers)
  }

  /** maybeShutdown, the callback of the idle timer. */
  function LingerFires(b: Backend): Backend {
    b.(armed := false, closing := b.closing || Idle(b))
  }

  function Shutdown(b: Backend): Backend { b.(closing := true) }

  function ShutdownIfIdle(b: Backend): Backend { b.(closing := b.closing || Idle(b)) }
}
