/** The refresh as a protocol between processes that share one disk token, one lock and a
    provider that rotates refresh tokens. */
module TokenProtocol {
  import opened Common
  import opened TokenRefresh

  /** Where a process is in refreshOAuthTokenLocked. From Holding on it has the lock;
      Issued holds what the provider returned and is not on disk yet. */
  datatype Stage =
    | Idle
    | Waiting(entry: Token)
    | Holding(entry: Token)
    | Ready(entry: Token)
    | Failed(entry: Token)
    | Retrying(entry: Token)
    | Issued(token: Token)

  datatype Process = Process(mem: Token, stage: Stage)

  /** `refreshes` and `accesses` are the refresh and access tokens that the provider issued so
      far, `live` the refresh tokens that it still accepts: the others were rotated away.
      `reused` says that a refresh token outside `live` was presented, which revokes the whole
      token family. */
  datatype World = World(
    procs: map<nat, Process>, disk: Option<Token>, holder: Option<nat>,
    live: set<string>, refreshes: set<string>, accesses: set<string>, now: int, reused: bool)

  datatype Event =
    | Starts(p: nat)
    | LockFails(p: nat)
    | LockTaken(p: nat)
    | ReadsDisk(p: nat)
    | Exchanges(p: nat, reply: Option<Token>)
    | ReplyLost(p: nat, issued: Token)
    | Rechecks(p: nat)
    | Persists(p: nat)
    | PersistFails(p: nat)
    | Crashes(p: nat)
    | Reloads(p: nat)
    | Login(p: nat, token: Token, locked: bool)
    | Tick(seconds: nat)

  predicate HoldsLock(s: Stage) { !s.Idle? && !s.Waiting? }

  predicate Presents(s: Stage) { s.Ready? || s.Retrying? }

  ghost predicate Enabled(w: World, e: Event) {
    match e
    case Starts(p) => p in w.procs && w.procs[p].stage.Idle?
    case LockFails(p) => p in w.procs && w.procs[p].stage.Waiting?
    case LockTaken(p) => p in w.procs && w.procs[p].stage.Waiting? && w.holder.None?
    case ReadsDisk(p) => p in w.procs && w.procs[p].stage.Holding?
    case Exchanges(p, reply) =>
      p in w.procs && Presents(w.procs[p].stage) && (reply.Some? ==> w.procs[p].stage.entry.refresh in w.live)
    case ReplyLost(p, _) => p in w.procs && Presents(w.procs[p].stage) && w.procs[p].stage.entry.refresh in w.live
    case Rechecks(p) => p in w.procs && w.procs[p].stage.Failed?
    case Persists(p) => p in w.procs && w.procs[p].stage.Issued?
    case PersistFails(p) => p in w.procs && w.procs[p].stage.Issued?
    case Crashes(p) => p in w.procs && w.disk.Some?
    case Reloads(p) => p in w.procs && w.disk.Some?
    case Login(p, _, locked) => p in w.procs && (locked ==> w.holder.None?)
    case Tick(_) => true
  }

  function At(w: World, p: nat, s: Stage): World
    requires p in w.procs
  {
    w.(procs := w.procs[p := w.procs[p].(stage := s)])
  }

  function WithMem(w: World, p: nat, t: Token): World
    requires p in w.procs
  {
    w.(procs := w.procs[p := w.procs[p].(mem := t)])
  }

  /** The deferred release, and the return. */
  function Done(w: World, p: nat): World
    requires p in w.procs
  {
    At(w.(holder := if w.holder == Some(p) then None else w.holder), p, Idle)
  }

  /** The provider issues `t`. */
  function Issue(w: World, t: Token): World {
    w.(live := w.live + {t.refresh}, refreshes := w.refreshes + {t.refresh}, accesses := w.accesses + {t.access})
  }

  /** The provider accepts `spent` and issues `t` for it. */
  function Rotated(w: World, spent: string, t: Token): World { Issue(w.(live := w.live - {spent}), t) }

  function Chosen(w: World, p: nat, c: Choice, presenting: Stage): World
    requires p in w.procs
  {
    match c
    case Adopt(d) => Done(WithMem(w, p, d), p)
    case Present(_) => At(w, p, presenting)
    case GiveUp => Done(w, p)
  }

  ghost function Step(w: World, e: Event): World
    requires Enabled(w, e)
  {
    match e
    case Starts(p) => At(w, p, Waiting(w.procs[p].mem))
    case LockFails(p) =>
      (match UsableDiskToken(w.disk, w.procs[p].stage.entry, w.now)
       case Some(d) => At(WithMem(w, p, d), p, Idle)
       case None => At(w, p, Idle))
    case LockTaken(p) => At(w.(holder := Some(p)), p, Holding(w.procs[p].stage.entry))
    case ReadsDisk(p) =>
      var c := AfterLock(w.disk, w.procs[p].stage.entry, w.now);
      Chosen(w, p, c, if c.Present? then Ready(c.token) else Idle)
    case Exchanges(p, reply) =>
      var r := w.procs[p].stage.entry.refresh;
      (match reply
       case Some(t) => At(WithMem(Rotated(w, r, t), p, t), p, Issued(t))
       case None => Refused(w.(reused := w.reused || r !in w.live), p))
    case ReplyLost(p, t) => Refused(Rotated(w, w.procs[p].stage.entry.refresh, t), p)
    case Rechecks(p) =>
      var c := AfterFailure(w.disk, w.procs[p].stage.entry, w.now);
      Chosen(w, p, c, if c.Present? then Retrying(c.token) else Idle)
    case Persists(p) => Done(w.(disk := Some(w.procs[p].stage.token)), p)
    case PersistFails(p) => Done(w, p)
    case Crashes(p) => Done(WithMem(w, p, w.disk.value), p)
    case Reloads(p) => WithMem(w, p, w.disk.value)
    case Login(p, t, _) => WithMem(Issue(w, t).(disk := Some(t)), p, t)
    case Tick(seconds) => w.(now := w.now + seconds)
  }

  /** The caller saw the exchange fail. */
  function Refused(w: World, p: nat): World
    requires p in w.procs && Presents(w.procs[p].stage)
  {
    if w.procs[p].stage.Ready? then At(w, p, Failed(w.procs[p].stage.entry)) else Done(w, p)
  }

  /** A token that the provider never issued before, with a refresh token. */
  ghost predicate Fresh(w: World, t: Token) {
    t.access !in w.accesses && t.refresh !in w.refreshes && t.refresh != ""
  }

  /** A peer that holds `k` and finds `t` on disk presents nothing that was rotated away: it
      takes `t` for newer than `k`, or the provider still accepts `k`. */
  ghost predicate Outdoes(w: World, t: Token, k: Token) {
    k.expiresAt <= t.expiresAt || k.refresh in w.live
  }

  /** The login of `p` with `t` outdoes what every other process holds in memory and what every
      process is waiting to refresh. */
  ghost predicate Harmless(w: World, p: nat, t: Token) {
    forall q | q in w.procs ::
      && (q != p ==> Outdoes(w, t, w.procs[q].mem))
      && (w.procs[q].stage.Waiting? ==> Outdoes(w, t, w.procs[q].stage.entry))
  }

  /** What the property assumes: the provider issues fresh tokens whose expiry does not
      decrease, no reply and no write is lost after a rotation, and a login takes the lock
      and is harmless. */
  ghost predicate Cooperative(w: World, e: Event)
    requires Enabled(w, e)
  {
    match e
    case Exchanges(p, Some(t)) => Fresh(w, t) && t.expiresAt >= w.procs[p].stage.entry.expiresAt
    case ReplyLost(_, _) => false
    case PersistFails(_) => false
    case Crashes(p) => !w.procs[p].stage.Issued?
    case Login(p, t, locked) => locked && Fresh(w, t) && Harmless(w, p, t)
    case _ => true
  }

  /** A run that goes on from `w`. */
  ghost predicate Continues(w: World, ws: seq<World>, es: seq<Event>) {
    && |ws| == |es| + 1 && ws[0] == w
    && forall i | 0 <= i < |es| :: Enabled(ws[i], es[i]) && Cooperative(ws[i], es[i]) && ws[i + 1] == Step(ws[i], es[i])
  }

  ghost predicate IsRun(ws: seq<World>, es: seq<Event>) {
    |ws| > 0 && Startable(ws[0]) && Continues(ws[0], ws, es)
  }

  /** Any number of processes, each with the token on disk or with an older one; the provider
      issued them all, each with a refresh token of its own. */
  ghost predicate Startable(w: World) {
    && w.disk.Some? && w.disk.value.refresh in w.live && Known(w, w.disk.value)
    && w.holder.None? && !w.reused && "" !in w.live && w.live <= w.refreshes
    && (forall p | p in w.procs ::
          && w.procs[p].stage.Idle? && Known(w, w.procs[p].mem)
          && (w.procs[p].mem == w.disk.value || IsOlder(w.procs[p].mem, w.disk.value)))
    && Unique(w)
  }

  // ------------------------------------------------------------------------ the invariant

  /** The provider issued this token; it may have come without a refresh token. */
  ghost predicate Known(w: World, t: Token) {
    t.access in w.accesses && (t.refresh == "" || t.refresh in w.refreshes)
  }

  ghost predicate IsOlder(t: Token, than: Token) { t.access != than.access && t.expiresAt <= than.expiresAt }

  predicate HasEntry(s: Stage) { s.Waiting? || s.Holding? || s.Ready? || s.Failed? || s.Retrying? }

  /** The process has the token in memory or in its hands. */
  ghost predicate Has(w: World, p: nat, t: Token) {
    && p in w.procs
    && (w.procs[p].mem == t
        || (HasEntry(w.procs[p].stage) && w.procs[p].stage.entry == t)
        || (w.procs[p].stage.Issued? && w.procs[p].stage.token == t))
  }

  ghost predicate Held(w: World, t: Token) { w.disk == Some(t) || exists p :: Has(w, p, t) }

  /** A refresh token that the provider accepts belongs to one token. */
  ghost predicate Unique(w: World) {
    forall j, k | Held(w, j) && Held(w, k) && j.refresh == k.refresh && j.refresh in w.live :: j == k
  }

  ghost predicate IssuedBy(w: World, p: nat) { p in w.procs && w.procs[p].stage.Issued? }

  /** The token that the provider issued last for the credential on disk: the one on disk, or
      the one that a lock holder is about to write there. */
  ghost function Authority(w: World): Token
    requires w.disk.Some?
  {
    if w.holder.Some? && IssuedBy(w, w.holder.value) then w.procs[w.holder.value].stage.token else w.disk.value
  }

  /** Whoever holds `t` will find the authority newer, or presents what is still accepted. */
  ghost predicate Safe(w: World, t: Token)
    requires w.disk.Some?
  {
    var a := Authority(w);
    t == a || (t.access != a.access && (t.expiresAt <= a.expiresAt || t.refresh in w.live))
  }

  ghost predicate StageInv(w: World, p: nat)
    requires w.disk.Some? && p in w.procs
  {
    var s := w.procs[p].stage;
    && (HoldsLock(s) ==> w.holder == Some(p))
    && !s.Retrying?
    && (s.Ready? || s.Failed? ==>
          s.entry.refresh in w.live && (s.entry == w.disk.value || s.entry.expiresAt > w.disk.value.expiresAt))
  }

  ghost predicate Inv(w: World) {
    && w.disk.Some? && w.disk.value.refresh != "" && !w.reused && "" !in w.live && w.live <= w.refreshes
    && Authority(w).refresh in w.live
    && (w.disk.value == Authority(w) || IsOlder(w.disk.value, Authority(w)))
    && (forall t | Held(w, t) :: Known(w, t) && Safe(w, t))
    && Unique(w)
    && (forall p | p in w.procs :: StageInv(w, p))
  }

  lemma StartInv(w: World)
    requires Startable(w)
    ensures Inv(w)
  {
  }

  /** A step that brings no token, changes neither disk nor provider, and leaves the authority. */
  ghost predicate Quiet(w: World, w': World)
    requires w.disk.Some?
  {
    && w'.disk == w.disk && w'.live == w.live && w'.refreshes == w.refreshes && w'.accesses == w.accesses
    && w'.reused == w.reused && Authority(w') == Authority(w)
    && forall t | Held(w', t) :: Held(w, t)
  }

  lemma QuietKeeps(w: World, w': World)
    requires Inv(w) && Quiet(w, w') && forall p | p in w'.procs :: StageInv(w', p)
    ensures Inv(w')
  {
    hide Held, Authority, StageInv;
  }

  /** A process moves on its own: it may take up the disk token, start or stop waiting, take
      or release the lock. */
  ghost predicate OwnMove(w: World, w': World, p: nat)
    requires w.disk.Some?
  {
    && p in w.procs && p in w'.procs && w'.procs == w.procs[p := w'.procs[p]]
    && w'.disk == w.disk && w'.live == w.live && w'.refreshes == w.refreshes && w'.accesses == w.accesses
    && w'.reused == w.reused
    && (w'.holder == w.holder || (w.holder == Some(p) && w'.holder.None?) || (w.holder.None? && w'.holder == Some(p)))
    && (w.procs[p].stage.Issued? || w'.procs[p].stage.Issued? ==>
          w'.procs[p].stage == w.procs[p].stage && w'.holder == w.holder)
    && (forall t | Has(w', p, t) :: Has(w, p, t) || w.disk == Some(t))
  }

  lemma OwnMoveKeeps(w: World, w': World, p: nat)
    requires Inv(w) && OwnMove(w, w', p) && StageInv(w', p)
    ensures Inv(w')
  {
    forall q | q in w'.procs ensures StageInv(w', q) { assert StageInv(w, q); }
    forall t | Held(w', t) ensures Held(w, t) {
      if w'.disk != Some(t) {
        var q :| Has(w', q, t);
        assert Has(w, q, t) || w.disk == Some(t);
      }
    }
    QuietKeeps(w, w');
  }

  lemma LockMovesKeep(w: World, e: Event)
    requires Enabled(w, e) && Inv(w)
    requires e.Starts? || e.LockFails? || e.LockTaken? || e.Reloads? || (e.Crashes? && Cooperative(w, e))
    ensures Inv(Step(w, e))
  {
    hide Held, Authority, Safe, Unique, Known;
    assert StageInv(w, e.p);
    OwnMoveKeeps(w, Step(w, e), e.p);
  }

  lemma DiskMovesKeep(w: World, e: Event)
    requires Enabled(w, e) && Inv(w)
    requires e.ReadsDisk? || e.Rechecks? || (e.Exchanges? && e.reply.None?)
    ensures Inv(Step(w, e))
  {
    hide Unique, Known;
    assert StageInv(w, e.p);
    assert Has(w, e.p, w.procs[e.p].stage.entry) && Held(w, w.procs[e.p].stage.entry);
    OwnMoveKeeps(w, Step(w, e), e.p);
  }

  /** The provider issued `t`, which becomes the authority; what was held stays safe. */
  lemma IssueKeeps(w: World, w': World, spent: set<string>, t: Token)
    requires Inv(w) && Fresh(w, t) && w'.disk.Some?
    requires w'.live == w.live - spent + {t.refresh} && w'.refreshes == w.refreshes + {t.refresh}
    requires w'.accesses == w.accesses + {t.access} && !w'.reused
    requires Authority(w') == t && (w'.disk == Some(t) || w'.disk == w.disk)
    requires forall k | Held(w', k) && k != t :: Held(w, k) && (k.expiresAt <= t.expiresAt || k.refresh in w'.live)
    requires w.disk.value.expiresAt <= t.expiresAt || w'.disk == Some(t)
    requires forall p | p in w'.procs :: StageInv(w', p)
    ensures Inv(w')
  {
    hide Held, Authority, StageInv;
    assert w'.disk != Some(t) ==> Held(w, w.disk.value) by { DiskIsHeld(w); }
  }

  lemma DiskIsHeld(w: World)
    requires w.disk.Some?
    ensures Held(w, w.disk.value)
  {
  }

  lemma ExchangeKeeps(w: World, e: Event)
    requires e.Exchanges? && e.reply.Some? && Enabled(w, e) && Cooperative(w, e) && Inv(w)
    ensures Inv(Step(w, e))
  {
    hide Known;
    var w', t, spent := Step(w, e), e.reply.value, w.procs[e.p].stage.entry;
    assert StageInv(w, e.p);
    assert Has(w, e.p, spent) && Held(w, spent);
    forall q | q in w'.procs ensures StageInv(w', q) { assert StageInv(w, q); }
    forall k | Held(w', k) && k != t ensures Held(w, k) && (k.expiresAt <= t.expiresAt || k.refresh in w'.live) {
      OnlyOneNew(w, w', e.p, t, k);
      assert Safe(w, k);
    }
    IssueKeeps(w, w', {spent.refresh}, t);
  }

  /** Only one process changed, and at most one token is new. */
  lemma OnlyOneNew(w: World, w': World, p: nat, t: Token, k: Token)
    requires p in w.procs && p in w'.procs && w'.procs == w.procs[p := w'.procs[p]]
    requires w'.disk == w.disk || w'.disk == Some(t)
    requires forall j | Has(w', p, j) :: Has(w, p, j) || j == t
    requires Held(w', k) && k != t
    ensures Held(w, k)
  {
    if w.disk != Some(k) {
      var q :| Has(w', q, k);
      assert Has(w, q, k);
    }
  }

  lemma PersistKeeps(w: World, e: Event)
    requires e.Persists? && Enabled(w, e) && Inv(w)
    ensures Inv(Step(w, e))
  {
    var w', t := Step(w, e), w.procs[e.p].stage.token;
    assert StageInv(w, e.p);
    assert Has(w, e.p, t) && Held(w, t);
    assert Authority(w) == t && Authority(w') == t;
    forall q | q in w'.procs ensures StageInv(w', q) { assert StageInv(w, q); }
    forall k | Held(w', k) ensures Held(w, k) {
      if k != t { OnlyOneNew(w, w', e.p, t, k); }
    }
    hide Held, StageInv, Authority;
  }

  lemma LoginKeeps(w: World, e: Event)
    requires e.Login? && Enabled(w, e) && Cooperative(w, e) && Inv(w)
    ensures Inv(Step(w, e))
  {
    hide Known, Unique, Safe;
    var w' := Step(w, e);
    forall q | q in w'.procs ensures StageInv(w', q) { assert StageInv(w, q); }
    forall k | Held(w', k) && k != e.token
      ensures Held(w, k) && (k.expiresAt <= e.token.expiresAt || k.refresh in w'.live) {
      OnlyOneNew(w, w', e.p, e.token, k);
      var q :| Has(w', q, k);
      assert StageInv(w, q);
    }
    IssueKeeps(w, w', {}, e.token);
  }

  lemma TickKeeps(w: World, e: Event)
    requires e.Tick? && Inv(w)
    ensures Enabled(w, e)
    ensures Inv(Step(w, e))
  {
    var w' := Step(w, e);
    forall q | q in w'.procs ensures StageInv(w', q) { assert StageInv(w, q); }
    forall t | Held(w', t) ensures Held(w, t) {
      if w'.disk != Some(t) { var q :| Has(w', q, t); assert Has(w, q, t); }
    }
    QuietKeeps(w, w');
  }

  lemma StepKeeps(w: World, e: Event)
    requires Enabled(w, e) && Cooperative(w, e) && Inv(w)
    ensures Inv(Step(w, e))
  {
    hide Inv;
    match e
    case Exchanges(_, None) => DiskMovesKeep(w, e);
    case Exchanges(_, Some(_)) => ExchangeKeeps(w, e);
    case Persists(_) => PersistKeeps(w, e);
    case Login(_, _, _) => LoginKeeps(w, e);
    case Tick(_) => TickKeeps(w, e);
    case ReadsDisk(_) => DiskMovesKeep(w, e);
    case Rechecks(_) => DiskMovesKeep(w, e);
    case _ => LockMovesKeep(w, e);
  }

  lemma {:induction false} ContinuationKeeps(w: World, ws: seq<World>, es: seq<Event>, i: nat)
    requires Inv(w) && Continues(w, ws, es) && i < |ws|
    ensures Inv(ws[i])
  {
    hide Inv, Step, Enabled, Cooperative;
    if i == 0 {
    } else {
      ContinuationKeeps(w, ws, es, i - 1);
      StepKeeps(ws[i - 1], es[i - 1]);
    }
  }

  lemma RunKeeps(ws: seq<World>, es: seq<Event>, i: nat)
    requires IsRun(ws, es) && i < |ws|
    ensures Inv(ws[i])
  {
    hide Inv, Startable, Continues;
    StartInv(ws[0]);
    ContinuationKeeps(ws[0], ws, es, i);
  }

  // ------------------------------------------------------------------------------ results

  /** No rotated refresh token is ever presented: at every exchange, by any of any number of
      processes, the provider accepts what is presented, which is the token on disk or, after
      a login that expires early, one that expires later and is still accepted. */
  lemma NoRotatedTokenIsPresented(ws: seq<World>, es: seq<Event>, i: nat)
    requires IsRun(ws, es) && i < |es| && es[i].Exchanges?
    ensures var w := ws[i]; var presented := w.procs[es[i].p].stage.entry;
      && presented.refresh in w.live
      && w.disk.Some? && (presented == w.disk.value || presented.expiresAt > w.disk.value.expiresAt)
    ensures !ws[i + 1].reused
  {
    hide Step, Held, Unique;
    RunKeeps(ws, es, i);
    RunKeeps(ws, es, i + 1);
    assert StageInv(ws[i], es[i].p);
  }

  /** The retry with a token that a peer rotated in is never needed while the lock is
      respected: under it nobody else writes. */
  lemma RetryIsUnreachable(ws: seq<World>, es: seq<Event>, i: nat, p: nat)
    requires IsRun(ws, es) && i < |ws| && p in ws[i].procs
    ensures !ws[i].procs[p].stage.Retrying?
  {
    RunKeeps(ws, es, i);
    assert StageInv(ws[i], p);
  }

  // ------------------------------------------------------------------------- late logins

  /** Every login so far expired no earlier than the token that was on disk. */
  ghost predicate LateLogins(ws: seq<World>, es: seq<Event>, i: nat)
    requires i <= |es| < |ws|
  {
    forall k | 0 <= k < i && es[k].Login? :: ws[k].disk.Some? && es[k].token.expiresAt >= ws[k].disk.value.expiresAt
  }

  /** Nobody holds a token that expires later than the authority. */
  ghost predicate NoRival(w: World) {
    w.disk.Some? && forall t | Held(w, t) :: t.expiresAt <= Authority(w).expiresAt
  }

  lemma NoRivalAtStart(w: World)
    requires Startable(w)
    ensures NoRival(w)
  {
  }

  lemma NoRivalStays(w: World, e: Event)
    requires Enabled(w, e) && Cooperative(w, e) && Inv(w) && NoRival(w)
    requires e.Login? ==> e.token.expiresAt >= w.disk.value.expiresAt
    ensures NoRival(Step(w, e))
  {
    hide Known, Unique, Safe;
    var w' := Step(w, e);
    forall t | Held(w', t) ensures t.expiresAt <= Authority(w').expiresAt {
      Comes(w, e, t);
      if Held(w, t) { AuthorityGrows(w, e); }
    }
  }

  /** A step brings no token but the one that the provider issues in it. */
  lemma Comes(w: World, e: Event, t: Token)
    requires Enabled(w, e) && Cooperative(w, e) && Inv(w) && Held(Step(w, e), t)
    ensures Held(w, t) || (e.Exchanges? && e.reply == Some(t)) || (e.Login? && e.token == t)
    ensures Step(w, e).disk.Some?
    ensures !Held(w, t) ==> t == Authority(Step(w, e))
  {
    hide Known, Unique, Safe;
    var w' := Step(w, e);
    if w'.disk != Some(t) {
      var q :| Has(w', q, t);
      assert q in w.procs && StageInv(w, q);
      if !Held(w, t) { assert !Has(w, q, t); }
    } else if e.Persists? {
      assert Has(w, e.p, t);
    }
    if e.Exchanges? || e.Login? { assert StageInv(w, e.p); }
  }

  lemma AuthorityGrows(w: World, e: Event)
    requires Enabled(w, e) && Cooperative(w, e) && Inv(w)
    requires e.Login? ==> e.token.expiresAt >= w.disk.value.expiresAt
    ensures Step(w, e).disk.Some? && Authority(Step(w, e)).expiresAt >= Authority(w).expiresAt
  {
    hide Known, Unique, Safe, Held;
    if w.holder.Some? && w.holder.value in w.procs { assert StageInv(w, w.holder.value); }
    if !e.Tick? { assert StageInv(w, e.p); }
  }

  lemma {:induction false} NoRivalInRun(ws: seq<World>, es: seq<Event>, i: nat)
    requires IsRun(ws, es) && i < |ws| && LateLogins(ws, es, i)
    ensures NoRival(ws[i])
  {
    hide Inv, Step, Enabled, Cooperative, NoRival, Startable;
    if i == 0 {
      NoRivalAtStart(ws[0]);
    } else {
      NoRivalInRun(ws, es, i - 1);
      RunKeeps(ws, es, i - 1);
      NoRivalStays(ws[i - 1], es[i - 1]);
    }
  }

  /** As long as every login expires no earlier than the disk token, the token presented is
      always the one on disk. */
  lemma TheDiskTokenIsPresented(ws: seq<World>, es: seq<Event>, i: nat)
    requires IsRun(ws, es) && i < |es| && es[i].Exchanges? && LateLogins(ws, es, i)
    ensures Some(ws[i].procs[es[i].p].stage.entry) == ws[i].disk
  {
    hide Step, Unique;
    RunKeeps(ws, es, i);
    NoRivalInRun(ws, es, i);
    assert StageInv(ws[i], es[i].p);
    assert Has(ws[i], es[i].p, ws[i].procs[es[i].p].stage.entry);
    assert Held(ws[i], ws[i].procs[es[i].p].stage.entry);
  }

  // ------------------------------------------------------------- one exchange between them

  /** The token `t` is out: on disk, or in the hands of the lock holder who got it. Whoever
      else is refreshing entered with another token and has not read the disk yet. */
  ghost predicate Out(w: World, t: Token) {
    w.disk.Some? && Authority(w) == t && NobodyPresents(w, t)
  }

  ghost predicate NobodyPresents(w: World, t: Token) {
    forall p | p in w.procs ::
      var s := w.procs[p].stage;
      && (s.Waiting? || s.Holding? ==> s.entry.access != t.access)
      && !s.Ready? && !s.Failed? && !s.Retrying?
  }

  /** An event of a stretch in which `t` stays valid: nobody starts a refresh with `t`
      itself, nobody logs in, and `t` does not expire. */
  ghost predicate WhileValid(w: World, e: Event, t: Token) {
    && !IsExpired(t, w.now)
    && !e.Login?
    && (e.Starts? && e.p in w.procs ==> w.procs[e.p].mem.access != t.access)
  }

  lemma ExchangeBringsOut(w: World, e: Event)
    requires e.Exchanges? && e.reply.Some? && Enabled(w, e) && Cooperative(w, e) && Inv(w)
    ensures Out(Step(w, e), e.reply.value)
  {
    hide Unique, Safe;
    var t := e.reply.value;
    forall q | q in w.procs && HasEntry(w.procs[q].stage) ensures w.procs[q].stage.entry.access != t.access {
      assert Has(w, q, w.procs[q].stage.entry) && Held(w, w.procs[q].stage.entry);
    }
    assert forall q | q in w.procs :: StageInv(w, q);
  }

  lemma ReaderAdopts(w: World, p: nat, t: Token)
    requires Inv(w) && NoRival(w) && Out(w, t) && !IsExpired(t, w.now) && Enabled(w, ReadsDisk(p))
    ensures var w' := Step(w, ReadsDisk(p));
      p in w'.procs && w'.procs[p] == Process(t, Idle) && w'.holder.None?
  {
    hide Unique, Safe, Known;
    assert StageInv(w, p);
    assert Has(w, p, w.procs[p].stage.entry) && Held(w, w.procs[p].stage.entry);
  }

  lemma StaysOut(w: World, e: Event, t: Token)
    requires Enabled(w, e) && Cooperative(w, e) && Inv(w) && NoRival(w) && Out(w, t) && WhileValid(w, e, t)
    ensures Out(Step(w, e), t) && !e.Exchanges?
  {
    hide Inv, NoRival;
    if e.ReadsDisk? {
      ReaderAdopts(w, e.p, t);
      DiskIsOut(w, e.p, t);
    } else if e.Persists? || e.Crashes? || e.LockTaken? {
      HolderMovesOn(w, e, t);
    }
  }

  lemma HolderMovesOn(w: World, e: Event, t: Token)
    requires Enabled(w, e) && Cooperative(w, e) && Inv(w) && Out(w, t)
    requires e.Persists? || e.Crashes? || e.LockTaken?
    ensures Out(Step(w, e), t)
  {
    hide Safe, Unique, Held, Known;
    assert StageInv(w, e.p);
  }

  lemma DiskIsOut(w: World, p: nat, t: Token)
    requires Inv(w) && Out(w, t) && Enabled(w, ReadsDisk(p))
    ensures w.disk == Some(t) && w.holder == Some(p)
  {
    assert StageInv(w, p);
  }

  /** One exchange between them: after a successful exchange, as long as the new token stays
      valid, no process that started from an older token exchanges again. Each of them
      adopts the new token or gives up on the lock. */
  lemma {:induction false} OneExchangeWhileValid(ws: seq<World>, es: seq<Event>, i: nat, j: nat)
    requires IsRun(ws, es) && i < j < |ws| && es[i].Exchanges? && es[i].reply.Some? && LateLogins(ws, es, i)
    requires forall k | i < k < j :: WhileValid(ws[k], es[k], es[i].reply.value)
    ensures Out(ws[j], es[i].reply.value)
    ensures forall k | i < k < j :: !es[k].Exchanges?
  {
    hide Inv, Step, Enabled, Cooperative, Out, NoRival, Startable;
    RunKeeps(ws, es, j - 1);
    if j == i + 1 {
      ExchangeBringsOut(ws[i], es[i]);
    } else {
      OneExchangeWhileValid(ws, es, i, j - 1);
      NoRivalInRun(ws, es, j - 1);
      StaysOut(ws[j - 1], es[j - 1], es[i].reply.value);
    }
  }

  /** Whoever then reads the disk under the lock adopts the new token and is done. */
  lemma LateReaderAdopts(ws: seq<World>, es: seq<Event>, i: nat, j: nat, p: nat)
    requires IsRun(ws, es) && i < j < |es| && es[i].Exchanges? && es[i].reply.Some? && LateLogins(ws, es, i)
    requires forall k | i < k <= j :: WhileValid(ws[k], es[k], es[i].reply.value)
    requires es[j] == ReadsDisk(p)
    ensures p in ws[j + 1].procs && ws[j + 1].procs[p] == Process(es[i].reply.value, Idle) && ws[j + 1].holder.None?
  {
    hide Inv, Step, Cooperative, Out, NoRival, Startable;
    OneExchangeWhileValid(ws, es, i, j);
    RunKeeps(ws, es, j);
    NoRivalInRun(ws, es, j);
    ReaderAdopts(ws[j], p, es[i].reply.value);
  }

  // -------------------------------------------------------- the login condition is exact

  /** Process `p` is idle with a token that the provider no longer accepts and that expires
      later than the one on disk, and nobody has the lock. */
  ghost predicate Doomed(w: World, p: nat) {
    && p in w.procs && w.procs[p].stage.Idle? && w.holder.None? && w.disk.Some?
    && w.procs[p].mem.refresh !in w.live && w.procs[p].mem.expiresAt > w.disk.value.expiresAt
  }

  /** Its next refresh presents that token, with the lock in hand. */
  lemma DoomedPresents(w: World, p: nat) returns (ws: seq<World>, es: seq<Event>)
    requires Doomed(w, p)
    ensures Continues(w, ws, es) && ws[|es|].reused
  {
    var w1 := Step(w, Starts(p));
    ws, es := WaiterPresents(w1, p);
    ws, es := Prefixed(w, Starts(p), ws, es);
  }

  lemma WaiterPresents(w: World, p: nat) returns (ws: seq<World>, es: seq<Event>)
    requires p in w.procs && w.procs[p].stage.Waiting? && w.holder.None? && w.disk.Some?
    requires var k := w.procs[p].stage.entry; k.refresh !in w.live && k.expiresAt > w.disk.value.expiresAt
    ensures Continues(w, ws, es) && ws[|es|].reused
  {
    var w1 := Step(w, LockTaken(p));
    var w2 := Step(w1, ReadsDisk(p));
    var w3 := Step(w2, Exchanges(p, None));
    ws, es := [w3], [];
    ws, es := Prefixed(w2, Exchanges(p, None), ws, es);
    ws, es := Prefixed(w1, ReadsDisk(p), ws, es);
    ws, es := Prefixed(w, LockTaken(p), ws, es);
  }

  /** One more step in front. */
  lemma Prefixed(w: World, e: Event, ws: seq<World>, es: seq<Event>) returns (ws': seq<World>, es': seq<Event>)
    requires Enabled(w, e) && Cooperative(w, e) && Continues(Step(w, e), ws, es)
    ensures Continues(w, ws', es') && |es'| == |es| + 1 && ws'[|es'|] == ws[|es|]
  {
    hide Enabled, Cooperative, Step;
    ws', es' := [w] + ws, [e] + es;
    forall i | 0 <= i < |es'|
      ensures Enabled(ws'[i], es'[i]) && Cooperative(ws'[i], es'[i]) && ws'[i + 1] == Step(ws'[i], es'[i]) {
      if i > 0 { assert ws'[i] == ws[i - 1] && es'[i] == es[i - 1] && ws'[i + 1] == ws[i]; }
    }
  }

  /** What the login leaves in front of another process. */
  lemma AfterLogin(w: World, p: nat, t: Token, q: nat, k: Token)
    requires Inv(w) && p in w.procs && w.holder.None? && Fresh(w, t) && Has(w, q, k) && !Outdoes(w, t, k)
    ensures var w1 := Step(w, Login(p, t, true));
      && w1.disk == Some(t) && w1.holder.None? && w1.now == w.now
      && q in w1.procs && w1.procs[q].stage == w.procs[q].stage && (q != p ==> w1.procs[q] == w.procs[q])
      && (w1.procs[q].stage.Idle? || w1.procs[q].stage.Waiting?)
      && k.refresh !in w1.live && k.expiresAt > t.expiresAt
  {
    hide Unique, Safe;
    assert StageInv(w, q) && Held(w, k);
  }

  /** A waiting process whose memory holds such a token gives up on the lock once the token on
      disk expired, and is doomed. */
  lemma WaiterFallsBack(w: World, q: nat, t: Token) returns (ws: seq<World>, es: seq<Event>)
    requires q in w.procs && w.procs[q].stage.Waiting? && w.holder.None? && w.disk == Some(t)
    requires w.procs[q].mem.refresh !in w.live && w.procs[q].mem.expiresAt > t.expiresAt
    ensures Continues(w, ws, es) && ws[|es|].reused
  {
    hide Continues;
    var n := if t.expiresAt > w.now then t.expiresAt - w.now else 0;
    var w1 := Step(w, Tick(n));
    assert IsExpired(t, w1.now);
    ws, es := DoomedPresents(Step(w1, LockFails(q)), q);
    ws, es := Prefixed(w1, LockFails(q), ws, es);
    ws, es := Prefixed(w, Tick(n), ws, es);
  }

  /** What a login that is not harmless leads to. */
  lemma HarmfulLoginPresents(w: World, p: nat, t: Token) returns (ws: seq<World>, es: seq<Event>)
    requires Inv(w) && p in w.procs && w.holder.None? && Fresh(w, t) && !Harmless(w, p, t)
    ensures Continues(Step(w, Login(p, t, true)), ws, es) && ws[|es|].reused
  {
    hide Inv, Fresh, Outdoes, Continues, Step;
    var w1 := Step(w, Login(p, t, true));
    var q :| q in w.procs &&
      ((q != p && !Outdoes(w, t, w.procs[q].mem))
       || (w.procs[q].stage.Waiting? && !Outdoes(w, t, w.procs[q].stage.entry)));
    if w.procs[q].stage.Waiting? && !Outdoes(w, t, w.procs[q].stage.entry) {
      AfterLogin(w, p, t, q, w.procs[q].stage.entry);
      ws, es := WaiterPresents(w1, q);
    } else {
      AfterLogin(w, p, t, q, w.procs[q].mem);
      if w.procs[q].stage.Waiting? {
        ws, es := WaiterFallsBack(w1, q, t);
      } else {
        ws, es := DoomedPresents(w1, q);
      }
    }
  }

  /** The login condition is exact: a login under the lock is harmless if and only if, however
      the processes go on, no rotated refresh token is presented after it. */
  lemma LoginConditionIsExact(ws: seq<World>, es: seq<Event>, p: nat, t: Token)
    requires IsRun(ws, es) && p in ws[|es|].procs && ws[|es|].holder.None? && Fresh(ws[|es|], t)
    ensures var w1 := Step(ws[|es|], Login(p, t, true));
      Harmless(ws[|es|], p, t)
      <==> forall ws': seq<World>, es': seq<Event> | Continues(w1, ws', es') :: !ws'[|es'|].reused
  {
    hide Inv, Startable, Harmless, Fresh, Step;
    var w := ws[|es|];
    RunKeeps(ws, es, |es|);
    var w1 := Step(w, Login(p, t, true));
    if Harmless(w, p, t) {
      StepKeeps(w, Login(p, t, true));
      forall ws': seq<World>, es': seq<Event> | Continues(w1, ws', es') ensures !ws'[|es'|].reused {
        NeverReused(w1, ws', es');
      }
    } else {
      var ws', es' := HarmfulLoginPresents(w, p, t);
    }
  }

  lemma NeverReused(w: World, ws: seq<World>, es: seq<Event>)
    requires Inv(w) && Continues(w, ws, es)
    ensures !ws[|es|].reused
  {
    ContinuationKeeps(w, ws, es, |es|);
  }

  /** The same for one peer, on the direct way: a peer whose refresh token was rotated away
      goes on to present it, with the refresh lock in hand, if and only if the token that a
      login just put on disk expires earlier than the peer's own stale one. */
  lemma EarlyExpiringLoginIsSkipped(ws: seq<World>, es: seq<Event>, w: World, p: nat, stale: nat, login: Token)
    requires IsRun(ws, es) && w == ws[|es|] && w.holder.None? && p in w.procs && stale in w.procs && stale != p
    requires w.procs[stale].stage.Idle? && w.procs[stale].mem.refresh !in w.live && Fresh(w, login)
    ensures var w1 := Step(w, Login(p, login, true));
      && Enabled(w1, Starts(stale))
      && var w2 := Step(w1, Starts(stale));
      && Enabled(w2, LockTaken(stale))
      && var w3 := Step(w2, LockTaken(stale));
      && Enabled(w3, ReadsDisk(stale))
      && var s := Step(w3, ReadsDisk(stale)).procs[stale].stage;
      (s.Ready? && s.entry.refresh !in w3.live) <==> login.expiresAt < w.procs[stale].mem.expiresAt
  {
    RunKeeps(ws, es, |es|);
    assert Has(w, stale, w.procs[stale].mem) && Held(w, w.procs[stale].mem);
  }

  /** A rotation whose result never reaches the disk breaks the property: the next process
      that reads the disk presents the token that was rotated away. */
  lemma LostWriteLeadsToReuse(ws: seq<World>, es: seq<Event>, w: World, p: nat, q: nat, t: Token)
    requires IsRun(ws, es) && w == ws[|es|] && p in w.procs && q in w.procs && p != q && Fresh(w, t)
    requires w.disk.Some? && w.procs[q] == Process(w.disk.value, Idle)
    requires w.procs[p] == Process(w.disk.value, Ready(w.disk.value))
    ensures Enabled(w, Exchanges(p, Some(t)))
    ensures var w1 := Step(w, Exchanges(p, Some(t)));
      var w2 := Step(w1, PersistFails(p));
      var w3 := Step(w2, Starts(q));
      w2.holder.None? && Enabled(w3, LockTaken(q))
      && var w4 := Step(w3, LockTaken(q));
      var w5 := Step(w4, ReadsDisk(q));
      && Enabled(w5, Exchanges(q, None)) && Step(w5, Exchanges(q, None)).reused
  {
    hide Unique, Held;
    RunKeeps(ws, es, |es|);
    assert StageInv(w, p);
    FreshIsNew(w, t);
  }

  lemma FreshIsNew(w: World, t: Token)
    requires Inv(w) && Fresh(w, t)
    ensures forall r | r in w.live :: r != t.refresh
  {
  }
}
