/** The pool of database connections of internal/db/connect.go: Connect with every failing
    step, Release, and what the pool owns outside itself. */
module ConnectionPool {
  import opened Common

  /** Connections and data-directory locks are named by numbers in the order they were made. */
  datatype Entry = Entry(conn: nat, refCount: int, lock: Option<nat>)

  /** `made` and `taken` count the connections opened and the locks acquired so far;
      `closed` and `freed` record every Close and every release. */
  datatype Pool = Pool(
    entries: map<string, Entry>, made: nat, closed: multiset<nat>, taken: nat, freed: multiset<nat>)

  const EMPTY := Pool(map[], 0, multiset{}, 0, multiset{})

  /** How each fallible step of a Connect ends. */
  datatype Steps = Steps(mkdir: bool, lock: bool, open: bool, ping: bool, goose: bool, migrate: bool)

  datatype Error = NoDataDir | MkdirFailed | LockHeld | OpenFailed | PingFailed | GooseFailed | MigrateFailed

  datatype Result = Connected(conn: nat) | Failed(error: Error)

  function FreeLock(p: Pool, lock: Option<nat>): Pool {
    if lock.Some? then p.(freed := p.freed + multiset{lock.value}) else p
  }

  function CloseConn(p: Pool, conn: nat): Pool { p.(closed := p.closed + multiset{conn}) }

  /** The part of Connect that takes the lock, opens the database and prepares it. */
  function OpenEntry(p: Pool, path: string, locks: bool, steps: Steps): (Pool, Result) {
    if locks && !steps.lock then (p, Failed(LockHeld))
    else
      var lock := if locks then Some(p.taken) else None;
      var p1 := if locks then p.(taken := p.taken + 1) else p;
      if !steps.open then (FreeLock(p1, lock), Failed(OpenFailed))
      else
        var p2 := p1.(made := p1.made + 1);
        var failed := FreeLock(CloseConn(p2, p.made), lock);
        if !steps.ping then (failed, Failed(PingFailed))
        else if !steps.goose then (failed, Failed(GooseFailed))
        else if !steps.migrate then (failed, Failed(MigrateFailed))
        else (p2.(entries := p.entries[path := Entry(p.made, 1, lock)]), Connected(p.made))
  }

  /** Connect for the data directory `dir`; `path` is its absolute database path. */
  function Connect(p: Pool, dir: string, path: string, lockDataDir: bool, skipLock: bool, steps: Steps)
    : (Pool, Result)
  {
    if dir == "" then (p, Failed(NoDataDir))
    else if path in p.entries then
      var e := p.entries[path];
      (p.(entries := p.entries[path := e.(refCount := e.refCount + 1)]), Connected(e.conn))
    else if !steps.mkdir then (p, Failed(MkdirFailed))
    else OpenEntry(p, path, lockDataDir && !skipLock, steps)
  }

  function Release(p: Pool, path: string): Pool {
    if path !in p.entries then p
    else
      var e := p.entries[path].(refCount := p.entries[path].refCount - 1);
      if e.refCount > 0 then p.(entries := p.entries[path := e])
      else FreeLock(CloseConn(p.(entries := p.entries - {path}), e.conn), e.lock)
  }

  // ------------------------------------------------------------------------------- runs

  datatype Event =
    | Connects(dir: string, path: string, lockDataDir: bool, skipLock: bool, steps: Steps)
    | Releases(path: string)

  /** `refs` is history: the successful Connects of a path that were not released yet. */
  datatype World = World(pool: Pool, refs: map<string, nat>)

  function Refs(w: World, path: string): nat { Lookup(w.refs, path, 0) }

  /** Every Release is paired with a Connect that succeeded. */
  predicate Matched(w: World, e: Event) { e.Releases? ==> Refs(w, e.path) > 0 }

  function Step(w: World, e: Event): World
    requires Matched(w, e)
  {
    match e
    case Connects(dir, path, lockDataDir, skipLock, steps) =>
      var (p, r) := Connect(w.pool, dir, path, lockDataDir, skipLock, steps);
      World(p, if r.Connected? then w.refs[path := Refs(w, path) + 1] else w.refs)
    case Releases(path) => World(Release(w.pool, path), w.refs[path := Refs(w, path) - 1])
  }

  ghost predicate IsRun(ws: seq<World>, es: seq<Event>) {
    && |ws| == |es| + 1
    && ws[0] == World(EMPTY, map[])
    && forall i | 0 <= i < |es| :: Matched(ws[i], es[i]) && ws[i + 1] == Step(ws[i], es[i])
  }

  // ------------------------------------------------------------------------ the invariant

  /** The books on one kind of resource: how many were made, which are gone, and which path
      owns which of the others. */
  datatype Ledger = Ledger(count: nat, gone: multiset<nat>, owner: map<string, nat>)

  function Conns(p: Pool): Ledger { Ledger(p.made, p.closed, map path | path in p.entries :: p.entries[path].conn) }

  function Locks(p: Pool): Ledger {
    Ledger(p.taken, p.freed,
           map path | path in p.entries && p.entries[path].lock.Some? :: p.entries[path].lock.value)
  }

  ghost predicate IsOwned(owner: map<string, nat>, r: nat) { exists a :: a in owner && owner[a] == r }

  /** Each resource that was made is owned by one path, or is gone exactly once. */
  ghost predicate Balanced(l: Ledger) {
    && (forall a, b | a in l.owner && b in l.owner && l.owner[a] == l.owner[b] :: a == b)
    && (forall a | a in l.owner :: l.owner[a] < l.count && l.owner[a] !in l.gone)
    && (forall r: nat :: l.gone[r] <= 1 && (r in l.gone ==> r < l.count))
    && (forall r: nat | r < l.count && r !in l.gone :: IsOwned(l.owner, r))
  }

  /** What may happen to the books: nothing, one is made and lost again, one is made for a
      path without one, a path gives up its own. */
  ghost predicate Moves(l: Ledger, l': Ledger, path: string) {
    || l' == l
    || l' == l.(count := l.count + 1, gone := l.gone + multiset{l.count})
    || (path !in l.owner && l' == l.(count := l.count + 1, owner := l.owner[path := l.count]))
    || (path in l.owner && l' == l.(gone := l.gone + multiset{l.owner[path]}, owner := l.owner - {path}))
  }

  lemma LossKeepsBalance(l: Ledger)
    requires Balanced(l)
    ensures Balanced(l.(count := l.count + 1, gone := l.gone + multiset{l.count}))
  {
  }

  lemma StillOwned(owner: map<string, nat>, owner': map<string, nat>, r: nat)
    requires IsOwned(owner, r) && forall a | a in owner && owner[a] == r :: a in owner' && owner'[a] == r
    ensures IsOwned(owner', r)
  {
  }

  lemma GainKeepsBalance(l: Ledger, path: string)
    requires Balanced(l) && path !in l.owner
    ensures Balanced(l.(count := l.count + 1, owner := l.owner[path := l.count]))
  {
    var l' := l.(count := l.count + 1, owner := l.owner[path := l.count]);
    forall r: nat | r < l'.count && r !in l'.gone ensures IsOwned(l'.owner, r) {
      if r < l.count {
        StillOwned(l.owner, l'.owner, r);
      } else {
        assert path in l'.owner && l'.owner[path] == r;
      }
    }
  }

  lemma DropKeepsBalance(l: Ledger, path: string)
    requires Balanced(l) && path in l.owner
    ensures Balanced(l.(gone := l.gone + multiset{l.owner[path]}, owner := l.owner - {path}))
  {
    var l' := l.(gone := l.gone + multiset{l.owner[path]}, owner := l.owner - {path});
    forall r: nat | r < l'.count && r !in l'.gone ensures IsOwned(l'.owner, r) {
      StillOwned(l.owner, l'.owner, r);
    }
  }

  lemma MovesKeepBalance(l: Ledger, l': Ledger, path: string)
    requires Balanced(l) && Moves(l, l', path)
    ensures Balanced(l')
  {
    hide Balanced;
    LossKeepsBalance(l);
    if path in l.owner { DropKeepsBalance(l, path); } else { GainKeepsBalance(l, path); }
  }

  lemma OpenMovesConns(p: Pool, path: string, locks: bool, steps: Steps)
    requires path !in p.entries
    ensures Moves(Conns(p), Conns(OpenEntry(p, path, locks, steps).0), path)
  {
    hide FreeLock, CloseConn;
    forall q: Pool, lock ensures Conns(FreeLock(q, lock)) == Conns(q) {
      FreeingKeepsConns(q, lock);
    }
    OpenedConns(p, path, if locks then Some(p.taken) else None);
    ClosedConn(p.(made := p.made + 1, taken := if locks then p.taken + 1 else p.taken), p.made);
  }

  lemma FreeingKeepsConns(p: Pool, lock: Option<nat>)
    ensures Conns(FreeLock(p, lock)) == Conns(p)
  {
  }

  lemma OpenedConns(p: Pool, path: string, lock: Option<nat>)
    ensures Conns(p.(entries := p.entries[path := Entry(p.made, 1, lock)])).owner
         == Conns(p).owner[path := p.made]
  {
  }

  lemma ClosedConn(p: Pool, conn: nat)
    ensures Conns(CloseConn(p, conn)) == Conns(p).(gone := p.closed + multiset{conn})
  {
  }

  lemma OpenMovesLocks(p: Pool, path: string, locks: bool, steps: Steps)
    requires path !in p.entries
    ensures Moves(Locks(p), Locks(OpenEntry(p, path, locks, steps).0), path)
  {
  }

  lemma ConnectMoves(p: Pool, dir: string, path: string, lockDataDir: bool, skipLock: bool, steps: Steps)
    ensures var p' := Connect(p, dir, path, lockDataDir, skipLock, steps).0;
      Moves(Conns(p), Conns(p'), path) && Moves(Locks(p), Locks(p'), path)
  {
    hide OpenEntry;
    var p' := Connect(p, dir, path, lockDataDir, skipLock, steps).0;
    if path in p.entries {
      assert Conns(p').owner == Conns(p).owner && Locks(p').owner == Locks(p).owner;
    } else {
      OpenMovesConns(p, path, lockDataDir && !skipLock, steps);
      OpenMovesLocks(p, path, lockDataDir && !skipLock, steps);
    }
  }

  lemma ReleaseMoves(p: Pool, path: string)
    ensures var p' := Release(p, path);
      Moves(Conns(p), Conns(p'), path) && Moves(Locks(p), Locks(p'), path)
  {
    var p' := Release(p, path);
    if path !in p'.entries && path in p.entries {
      assert Conns(p').owner == Conns(p).owner - {path};
      assert Locks(p').owner == if p.entries[path].lock.Some? then Locks(p).owner - {path} else Locks(p).owner;
    } else {
      assert Conns(p').owner == Conns(p).owner && Locks(p').owner == Locks(p).owner;
    }
  }

  ghost predicate RefInv(w: World) {
    forall path ::
      if path in w.pool.entries then w.pool.entries[path].refCount == Refs(w, path) > 0 else Refs(w, path) == 0
  }

  ghost predicate Inv(w: World) { Balanced(Conns(w.pool)) && Balanced(Locks(w.pool)) && RefInv(w) }

  lemma StepKeepsRefs(w: World, e: Event)
    requires Matched(w, e) && RefInv(w)
    ensures RefInv(Step(w, e))
  {
  }

  lemma {:induction false} RunKeeps(ws: seq<World>, es: seq<Event>, i: nat)
    requires IsRun(ws, es) && i < |ws|
    ensures Inv(ws[i])
  {
    if i == 0 {
    } else {
      RunKeeps(ws, es, i - 1);
      StepKeepsInv(ws[i - 1], es[i - 1]);
    }
  }

  lemma StepKeepsInv(w: World, e: Event)
    requires Matched(w, e) && Inv(w)
    ensures Inv(Step(w, e))
  {
    hide Balanced, RefInv, Moves, Connect, Release;
    StepKeepsRefs(w, e);
    if e.Connects? {
      ConnectMoves(w.pool, e.dir, e.path, e.lockDataDir, e.skipLock, e.steps);
    } else {
      ReleaseMoves(w.pool, e.path);
    }
    MovesKeepBalance(Conns(w.pool), Conns(Step(w, e).pool), e.path);
    MovesKeepBalance(Locks(w.pool), Locks(Step(w, e).pool), e.path);
  }

  // ----------------------------------------------------------------------------- results

  ghost predicate OwnsConn(p: Pool, path: string, conn: nat) { path in p.entries && p.entries[path].conn == conn }
  ghost predicate OwnsLock(p: Pool, path: string, lock: nat) { path in p.entries && p.entries[path].lock == Some(lock) }

  ghost predicate IsOpen(p: Pool, conn: nat) { conn < p.made && conn !in p.closed }
  ghost predicate IsHeld(p: Pool, lock: nat) { lock < p.taken && lock !in p.freed }

  /** Pool balance, after any Connects, failing at any step, and matched Releases: a path is
      pooled exactly while it has references, which the entry counts; a connection is open
      exactly while one entry owns it, and a lock is held exactly while one entry owns it. */
  lemma PoolBalance(ws: seq<World>, es: seq<Event>, i: nat)
    requires IsRun(ws, es) && i < |ws|
    ensures var w := ws[i]; var p := w.pool;
      && (forall path :: path in p.entries <==> Refs(w, path) > 0)
      && (forall path | path in p.entries :: p.entries[path].refCount == Refs(w, path))
      && (forall c: nat :: IsOpen(p, c) <==> exists path :: OwnsConn(p, path, c))
      && (forall l: nat :: IsHeld(p, l) <==> exists path :: OwnsLock(p, path, l))
      && (forall a, b, c: nat :: OwnsConn(p, a, c) && OwnsConn(p, b, c) ==> a == b)
      && (forall a, b, l: nat :: OwnsLock(p, a, l) && OwnsLock(p, b, l) ==> a == b)
  {
    RunKeeps(ws, es, i);
    OwnersAgree(ws[i].pool);
  }

  lemma OwnersAgree(p: Pool)
    requires Balanced(Conns(p)) && Balanced(Locks(p))
    ensures forall c: nat :: IsOpen(p, c) <==> exists path :: OwnsConn(p, path, c)
    ensures forall l: nat :: IsHeld(p, l) <==> exists path :: OwnsLock(p, path, l)
    ensures forall a, b, c: nat :: OwnsConn(p, a, c) && OwnsConn(p, b, c) ==> a == b
    ensures forall a, b, l: nat :: OwnsLock(p, a, l) && OwnsLock(p, b, l) ==> a == b
  {
    ConnOwnersAgree(p);
    LockOwnersAgree(p);
  }

  lemma ConnOwnersAgree(p: Pool)
    requires Balanced(Conns(p))
    ensures forall c: nat :: IsOpen(p, c) <==> exists path :: OwnsConn(p, path, c)
    ensures forall a, b, c: nat :: OwnsConn(p, a, c) && OwnsConn(p, b, c) ==> a == b
  {
    var owner := Conns(p).owner;
    assert forall a, c: nat :: OwnsConn(p, a, c) <==> a in owner && owner[a] == c;
    forall c: nat ensures IsOpen(p, c) <==> exists path :: OwnsConn(p, path, c) {
      if IsOpen(p, c) {
        var a :| a in owner && owner[a] == c;
        assert OwnsConn(p, a, c);
      }
    }
  }

  lemma LockOwnersAgree(p: Pool)
    requires Balanced(Locks(p))
    ensures forall l: nat :: IsHeld(p, l) <==> exists path :: OwnsLock(p, path, l)
    ensures forall a, b, l: nat :: OwnsLock(p, a, l) && OwnsLock(p, b, l) ==> a == b
  {
    var owner := Locks(p).owner;
    assert forall a, l: nat :: OwnsLock(p, a, l) <==> a in owner && owner[a] == l;
    forall l: nat ensures IsHeld(p, l) <==> exists path :: OwnsLock(p, path, l) {
      if IsHeld(p, l) {
        var a :| a in owner && owner[a] == l;
        assert OwnsLock(p, a, l);
      }
    }
  }

  /** Nothing is closed or released twice; and once every reference is gone, every connection
      ever opened is closed and every lock ever taken is released, exactly once. */
  lemma NothingLeaks(ws: seq<World>, es: seq<Event>, i: nat)
    requires IsRun(ws, es) && i < |ws|
    ensures var p := ws[i].pool;
      && (forall c: nat :: p.closed[c] <= 1) && (forall l: nat :: p.freed[l] <= 1)
      && ((forall path :: Refs(ws[i], path) == 0) ==>
          (forall c: nat | c < p.made :: p.closed[c] == 1) && (forall l: nat | l < p.taken :: p.freed[l] == 1))
  {
    RunKeeps(ws, es, i);
    var p := ws[i].pool;
    if forall path :: Refs(ws[i], path) == 0 {
      assert forall path :: path !in p.entries && path !in Conns(p).owner && path !in Locks(p).owner;
      assert forall c: nat | c < p.made :: c in p.closed;
      assert forall l: nat | l < p.taken :: l in p.freed;
    }
  }

  /** The failing step that a Connect reports first; the lock counts only if it is asked for. */
  function FirstFailure(steps: Steps, locks: bool): Option<Error> {
    if !steps.mkdir then Some(MkdirFailed)
    else if locks && !steps.lock then Some(LockHeld)
    else if !steps.open then Some(OpenFailed)
    else if !steps.ping then Some(PingFailed)
    else if !steps.goose then Some(GooseFailed)
    else if !steps.migrate then Some(MigrateFailed)
    else None
  }

  /** What a Connect answers, and what it and a Release do to the references, in every run: with a
      data directory a path that has references is shared whatever else would fail; any other path
      is opened exactly if no step fails, and otherwise the first failing one is reported. A path
      gains or loses one reference, and no other path changes. */
  lemma ConnectAnswers(ws: seq<World>, es: seq<Event>, i: nat, other: string)
    requires IsRun(ws, es) && i < |es|
    ensures es[i].Connects? ==>
      var e, w, w' := es[i], ws[i], ws[i + 1];
      var r := Connect(w.pool, e.dir, e.path, e.lockDataDir, e.skipLock, e.steps).1;
      var failure := FirstFailure(e.steps, e.lockDataDir && !e.skipLock);
      && (e.dir == "" ==> r == Failed(NoDataDir))
      && (e.dir != "" && Refs(w, e.path) > 0 ==> r.Connected? && OwnsConn(w.pool, e.path, r.conn))
      && (e.dir != "" && Refs(w, e.path) == 0 ==>
            if failure.Some? then r == Failed(failure.value) else r == Connected(w.pool.made))
      && (r.Connected? ==> OwnsConn(w'.pool, e.path, r.conn))
      && Refs(w', e.path) == Refs(w, e.path) + (if r.Connected? then 1 else 0)
    ensures es[i].Releases? ==> Refs(ws[i + 1], es[i].path) == Refs(ws[i], es[i].path) - 1
    ensures other != es[i].path ==>
      && Refs(ws[i + 1], other) == Refs(ws[i], other)
      && (other in ws[i + 1].pool.entries <==> other in ws[i].pool.entries)
      && (other in ws[i].pool.entries ==> ws[i + 1].pool.entries[other] == ws[i].pool.entries[other])
  {
    hide Balanced;
    RunKeeps(ws, es, i);
  }

  /** A Connect of a pooled path shares its connection and takes no lock; another one takes at
      most one, only if asked to and not told to skip it, and keeps it exactly if it
      succeeds. */
  lemma LockPerEntry(ws: seq<World>, es: seq<Event>, i: nat)
    requires IsRun(ws, es) && i < |es| && es[i].Connects?
    ensures var e, p, p' := es[i], ws[i].pool, ws[i + 1].pool;
      var r := Connect(p, e.dir, e.path, e.lockDataDir, e.skipLock, e.steps).1;
      && (e.path in p.entries || e.dir == "" ==> p'.taken == p.taken && p'.made == p.made)
      && (r.Connected? && e.path in p.entries ==> OwnsConn(p, e.path, r.conn))
      && p'.taken <= p.taken + 1
      && (p'.taken > p.taken ==>
          && e.lockDataDir && !e.skipLock && e.path !in p.entries
          && (IsHeld(p', p.taken) <==> r.Connected?) && (r.Connected? ==> OwnsLock(p', e.path, p.taken)))
      && (r.Failed? ==> p'.entries == p.entries && forall c: nat :: IsOpen(p', c) == IsOpen(p, c))
  {
    hide Balanced, RefInv;
    RunKeeps(ws, es, i);
    FreshLock(ws[i].pool);
  }

  lemma FreshLock(p: Pool)
    requires Balanced(Locks(p)) && Balanced(Conns(p))
    ensures p.taken !in p.freed && p.made !in p.closed
  {
  }
}

/** The pool as the objects that Connect and Release update. */
module ConnectionPoolClass {
  import opened Common
  import C = ConnectionPool
  import opened ConnectionPool

  class ConnEntry {
    const db: nat
    const lock: Option<nat>
    var refCount: int

    constructor (db: nat, lock: Option<nat>)
      ensures this.db == db && this.lock == lock && refCount == 1
    {
      this.db, this.lock, this.refCount := db, lock, 1;
    }
  }

  ghost function EntriesOf(pool: map<string, ConnEntry>): (values: map<string, Entry>)
    reads pool.Values
    ensures values.Keys == pool.Keys
    ensures forall path | path in pool :: values[path] == Entry(pool[path].db, pool[path].refCount, pool[path].lock)
  {
    map path | path in pool :: Entry(pool[path].db, pool[path].refCount, pool[path].lock)
  }

  /** No two paths share an entry. */
  ghost predicate Unshared(pool: map<string, ConnEntry>) {
    forall a, b | a in pool && b in pool && a != b :: pool[a] != pool[b]
  }

  /** Opening an entry does not depend on the other entries. */
  lemma OpenOnly(p: Pool, path: string, locks: bool, steps: Steps)
    ensures var (p', r) := OpenEntry(p, path, locks, steps);
      var (q, s) := OpenEntry(p.(entries := map[]), path, locks, steps);
      && r == s
      && (r.Connected? ==> path in q.entries && p' == q.(entries := p.entries[path := q.entries[path]]))
      && (r.Failed? ==> p' == q.(entries := p.entries))
  {
  }

  /** What the other fields hold does not matter to the entries. */
  twostate lemma SameEntries(pool: map<string, ConnEntry>)
    requires forall path | path in pool :: unchanged(pool[path])
    ensures EntriesOf(pool) == old(EntriesOf(pool))
  {
  }

  /** The package state: the pool and, as far as it is responsible for them, the connections
      and the locks. */
  class ConnPool {
    var pool: map<string, ConnEntry>
    var made: nat
    var closed: multiset<nat>
    var taken: nat
    var freed: multiset<nat>

    ghost function State(): Pool
      reads this, pool.Values
    {
      Pool(EntriesOf(pool), made, closed, taken, freed)
    }

    ghost predicate Valid()
      reads this
    {
      Unshared(pool)
    }

    constructor ()
      ensures Valid() && State() == EMPTY
    {
      pool, made, closed, taken, freed := map[], 0, multiset{}, 0, multiset{};
    }

    /** What the pool owns outside itself. */
    ghost function Owned(): Pool
      reads `made, `closed, `taken, `freed
    {
      Pool(map[], made, closed, taken, freed)
    }

    method CloseAndUnlock(conn: nat, lock: Option<nat>)
      modifies this`closed, this`freed
      ensures Owned() == FreeLock(CloseConn(old(Owned()), conn), lock)
    {
      closed := closed + multiset{conn};
      if lock.Some? { freed := freed + multiset{lock.value}; }
    }

    /** The part of Connect that takes the lock and opens the database. */
    method OpenConn(ghost path: string, locks: bool, steps: Steps) returns (r: Result, lock: Option<nat>)
      modifies `made, `closed, `taken, `freed
      ensures var (p, result) := OpenEntry(old(Owned()), path, locks, steps);
        && r == result && Owned() == p.(entries := map[])
        && (r.Connected? ==> p.entries == map[path := Entry(r.conn, 1, lock)])
    {
      lock := None;
      if locks {
        if !steps.lock { return Failed(LockHeld), None; }
        lock := Some(taken);
        taken := taken + 1;
      }
      if !steps.open {
        if lock.Some? { freed := freed + multiset{lock.value}; }
        return Failed(OpenFailed), None;
      }
      var conn := made;
      made := made + 1;
      r := Prepare(conn, lock, steps);
    }

    /** The steps after which a failure closes the connection and releases the lock. */
    method Prepare(conn: nat, lock: Option<nat>, steps: Steps) returns (r: Result)
      modifies `closed, `freed
      ensures r == (if !steps.ping then Failed(PingFailed) else if !steps.goose then Failed(GooseFailed)
                    else if !steps.migrate then Failed(MigrateFailed) else Connected(conn))
      ensures Owned() == if r.Connected? then old(Owned()) else FreeLock(CloseConn(old(Owned()), conn), lock)
    {
      if !steps.ping {
        CloseAndUnlock(conn, lock);
        return Failed(PingFailed);
      }
      if !steps.goose {
        CloseAndUnlock(conn, lock);
        return Failed(GooseFailed);
      }
      if !steps.migrate {
        CloseAndUnlock(conn, lock);
        return Failed(MigrateFailed);
      }
      r := Connected(conn);
    }

    method AddRef(entry: ConnEntry, ghost path: string, delta: int)
      requires Valid() && path in pool && pool[path] == entry
      modifies entry
      ensures Valid()
      ensures EntriesOf(pool) == old(EntriesOf(pool))[path := Entry(entry.db, old(entry.refCount) + delta, entry.lock)]
      ensures entry.refCount == old(entry.refCount) + delta
    {
      entry.refCount := entry.refCount + delta;
    }

    method Connect(dir: string, path: string, lockDataDir: bool, skipLock: bool, steps: Steps) returns (r: Result)
      requires Valid()
      modifies this, pool.Values
      ensures Valid()
      ensures (State(), r) == C.Connect(old(State()), dir, path, lockDataDir, skipLock, steps)
    {
      hide EntriesOf, Unshared;
      if dir == "" { return Failed(NoDataDir); }
      if path in pool {
        AddRef(pool[path], path, 1);
        return Connected(pool[path].db);
      }
      if !steps.mkdir { return Failed(MkdirFailed); }
      hide OpenEntry;
      r := ConnectNew(path, lockDataDir && !skipLock, steps);
    }

    method ConnectNew(path: string, locks: bool, steps: Steps) returns (r: Result)
      requires Valid() && path !in pool
      modifies this
      ensures Valid() && (State(), r) == OpenEntry(old(State()), path, locks, steps)
    {
      hide EntriesOf, Unshared, OpenEntry;
      OpenOnly(State(), path, locks, steps);
      var lock;
      r, lock := OpenConn(path, locks, steps);
      SameEntries(pool);
      if r.Connected? { Add(path, r.conn, lock); }
    }

    method Add(path: string, conn: nat, lock: Option<nat>)
      requires Valid() && path !in pool
      modifies this`pool
      ensures Valid() && EntriesOf(pool) == old(EntriesOf(pool))[path := Entry(conn, 1, lock)]
    {
      var entry := new ConnEntry(conn, lock);
      pool := pool[path := entry];
    }

    method Remove(path: string)
      requires Valid() && path in pool
      modifies this`pool
      ensures Valid() && pool == old(pool) - {path} && EntriesOf(pool) == old(EntriesOf(pool)) - {path}
    {
      pool := pool - {path};
    }

    method Release(path: string)
      requires Valid()
      modifies this, pool.Values
      ensures Valid() && State() == C.Release(old(State()), path)
    {
      hide EntriesOf, Unshared;
      if path !in pool { return; }
      var entry := pool[path];
      ghost var entries := EntriesOf(pool);
      AddRef(entry, path, -1);
      if entry.refCount > 0 { return; }
      Remove(path);
      assert entries[path := Entry(entry.db, entry.refCount, entry.lock)] - {path} == entries - {path};
      label Removed:
      CloseAndUnlock(entry.db, entry.lock);
      SameEntries@Removed(pool);
    }
  }
}
