/** The decisions of the OAuth refresh in internal/config/store.go, and the ConfigStore
    method that takes them. */
module TokenRefresh {
  import opened Common

  /** An OAuth token; the client registration that it may carry plays no part here. */
  datatype Token = Token(access: string, refresh: string, expiresIn: int, expiresAt: int)

  const MIN_REFRESH_BUFFER := 30

  /** IsExpired at time `now`. The buffer divides towards zero; the maximum hides that. */
  predicate IsExpired(t: Token, now: int) {
    var buffer := if t.expiresIn / 10 > MIN_REFRESH_BUFFER then t.expiresIn / 10 else MIN_REFRESH_BUFFER;
    now >= t.expiresAt - buffer
  }

  /** newerDiskToken: the token on disk if another session rotated the credential. A token
      without a refresh token does not displace one that has it. */
  function NewerDiskToken(disk: Option<Token>, entry: Token): (r: Option<Token>)
    ensures r.Some? ==> r == disk
    ensures r.Some? <==>
      && disk.Some? && disk.value.access != entry.access && disk.value.expiresAt >= entry.expiresAt
      && (entry.refresh == "" || disk.value.refresh != "")
  {
    match disk
    case None => None
    case Some(d) =>
      if d.access == entry.access then None
      else if d.refresh == "" && entry.refresh != "" then None
      else if d.expiresAt < entry.expiresAt then None
      else Some(d)
  }

  function UsableDiskToken(disk: Option<Token>, entry: Token, now: int): Option<Token> {
    var newer := NewerDiskToken(disk, entry);
    if newer.None? || IsExpired(newer.value, now) then None else newer
  }

  /** What a process that reads the disk under the refresh lock goes on to do. */
  datatype Choice = Adopt(token: Token) | Present(token: Token) | GiveUp

  function AfterLock(disk: Option<Token>, entry: Token, now: int): Choice {
    match NewerDiskToken(disk, entry)
    case Some(d) => if IsExpired(d, now) then Present(d) else Adopt(d)
    case None => Present(entry)
  }

  /** The re-check after a failed exchange. */
  function AfterFailure(disk: Option<Token>, entry: Token, now: int): Choice {
    match NewerDiskToken(disk, entry)
    case Some(d) => if IsExpired(d, now) then Present(d) else Adopt(d)
    case None => GiveUp
  }

  // ------------------------------------------------------------------ one refresh, in full

  /** What one call of refreshOAuthTokenLocked meets: the lock, what it reads from disk at
      its two looks, how each exchange ends, and whether the write to disk succeeds. */
  datatype Surroundings = Surroundings(
    lockOk: bool, lateDisk: Option<Token>, disk: Option<Token>, diskAgain: Option<Token>,
    first: Option<Token>, second: Option<Token>, persistOk: bool, now: int, later: int)

  datatype Error = NoToken | LockUnavailable | ExchangeFailed | PersistFailed

  /** What it did: the token in memory, the refresh tokens presented, in order, what was
      offered to the disk, and the error. */
  datatype Outcome = Outcome(mem: Option<Token>, presented: seq<string>, written: Option<Token>, error: Option<Error>)

  function Persisted(t: Token, presented: seq<string>, ok: bool): Outcome {
    Outcome(Some(t), presented, if ok then Some(t) else None, if ok then None else Some(PersistFailed))
  }

  function Exchanged(mem: Token, entry: Token, s: Surroundings): Outcome {
    if s.first.Some? then Persisted(s.first.value, [entry.refresh], s.persistOk)
    else match AfterFailure(s.diskAgain, entry, s.later)
      case Adopt(d) => Outcome(Some(d), [entry.refresh], None, None)
      case GiveUp => Outcome(Some(mem), [entry.refresh], None, Some(ExchangeFailed))
      case Present(d) =>
        if s.second.Some? then Persisted(s.second.value, [entry.refresh, d.refresh], s.persistOk)
        else Outcome(Some(mem), [entry.refresh, d.refresh], None, Some(ExchangeFailed))
  }

  function Refresh(mem: Option<Token>, s: Surroundings): Outcome {
    if mem.None? then Outcome(mem, [], None, Some(NoToken))
    else if !s.lockOk then
      match UsableDiskToken(s.lateDisk, mem.value, s.now)
      case Some(d) => Outcome(Some(d), [], None, None)
      case None => Outcome(mem, [], None, Some(LockUnavailable))
    else
      match AfterLock(s.disk, mem.value, s.now)
      case Adopt(d) => Outcome(Some(d), [], None, None)
      case Present(e) => Exchanged(mem.value, e, s)
      case GiveUp => Outcome(mem, [], None, None)
  }

  /** A refresh never trades a token for an older one, except for what the provider itself
      just issued; it presents nothing without the lock; and it writes only what the
      provider issued to it. */
  lemma RefreshIsMonotone(mem: Option<Token>, s: Surroundings)
    ensures var o := Refresh(mem, s);
      && (mem.Some? <==> o.mem.Some?)
      && (mem.Some? && o.mem != s.first && o.mem != s.second ==> o.mem.value.expiresAt >= mem.value.expiresAt)
      && (!s.lockOk ==> o.presented == [])
      && |o.presented| <= 2
      && (o.written.Some? ==> o.written == o.mem && o.written in {s.first, s.second} && o.error.None?)
      && (o.error.Some? && o.error != Some(PersistFailed) ==> o.mem == mem)
  {
  }

  /** The disk holds a token of another session that `entry` may give way to. */
  ghost predicate Displaces(disk: Option<Token>, entry: Token) {
    && disk.Some? && disk.value.access != entry.access && disk.value.expiresAt >= entry.expiresAt
    && (entry.refresh == "" || disk.value.refresh != "")
  }

  /** More than half a minute and more than a tenth of its lifetime are left. */
  ghost predicate IsUsable(t: Token, now: int) {
    t.expiresAt - now > 30 && t.expiresAt - now > t.expiresIn / 10
  }

  /** The token whose refresh token is presented first. */
  ghost function Spent(mem: Token, s: Surroundings): Token {
    if Displaces(s.disk, mem) then s.disk.value else mem
  }

  /** What a refresh does, case by case: without the lock it only takes up a usable token from
      disk; with it, it takes up a usable token of another session without any exchange, and
      otherwise presents one token, the other session's if there is one. Only if that exchange
      fails does it look again: it takes up what is usable by then, presents an unusable one, and
      gives up if the disk holds no other. What it is issued goes to memory, and to disk unless the
      write fails. */
  lemma RefreshDecides(mem: Token, s: Surroundings)
    ensures var o := Refresh(Some(mem), s);
      if !s.lockOk then
        if Displaces(s.lateDisk, mem) && IsUsable(s.lateDisk.value, s.now)
        then o == Outcome(s.lateDisk, [], None, None) else o == Outcome(Some(mem), [], None, Some(LockUnavailable))
      else if Displaces(s.disk, mem) && IsUsable(s.disk.value, s.now) then o == Outcome(s.disk, [], None, None)
      else
        var again := Displaces(s.diskAgain, Spent(mem, s));
        && |o.presented| > 0 && o.presented[0] == Spent(mem, s).refresh
        && (|o.presented| > 1 <==> s.first.None? && again && !IsUsable(s.diskAgain.value, s.later))
        && (|o.presented| > 1 ==> o.presented[1..] == [s.diskAgain.value.refresh])
        && (s.first.Some? ==> o.mem == s.first)
        && (s.first.None? && !again ==> o.mem == Some(mem) && o.error == Some(ExchangeFailed))
        && (s.first.None? && again && IsUsable(s.diskAgain.value, s.later) ==>
              o.mem == s.diskAgain && o.written.None? && o.error.None?)
        && (|o.presented| > 1 ==> if s.second.Some? then o.mem == s.second
                                  else o.mem == Some(mem) && o.error == Some(ExchangeFailed))
        && (s.first.Some? || (|o.presented| > 1 && s.second.Some?) ==>
              if s.persistOk then o.written == o.mem && o.error.None?
              else o.written.None? && o.error == Some(PersistFailed))
  {
    assert forall t: Token, now: int :: IsExpired(t, now) <==> !IsUsable(t, now);
  }

  class ConfigStore {
    var token: Option<Token>  // the provider's OAuthToken in memory

    constructor (token: Option<Token>)
      ensures this.token == token
    {
      this.token := token;
    }

    method ApplyToken(t: Token)
      modifies this
      ensures token == Some(t)
    {
      token := Some(t);
    }

    /** refreshOAuthTokenLocked in the given surroundings. */
    method RefreshOAuthTokenLocked(s: Surroundings)
      returns (presented: seq<string>, written: Option<Token>, error: Option<Error>)
      modifies this
      ensures Outcome(token, presented, written, error) == Refresh(old(token), s)
    {
      presented, written, error := [], None, None;
      if token.None? { return [], None, Some(NoToken); }
      var entry := token.value;
      if !s.lockOk {
        var usable := UsableDiskToken(s.lateDisk, entry, s.now);
        if usable.None? { return [], None, Some(LockUnavailable); }
        ApplyToken(usable.value);
        return;
      }
      var newer := NewerDiskToken(s.disk, entry);
      if newer.Some? {
        if !IsExpired(newer.value, s.now) {
          ApplyToken(newer.value);
          return;
        }
        entry := newer.value;
      }
      presented := [entry.refresh];
      var refreshed := s.first;
      if refreshed.None? {
        newer := NewerDiskToken(s.diskAgain, entry);
        if newer.Some? {
          if !IsExpired(newer.value, s.later) {
            ApplyToken(newer.value);
            return;
          }
          presented := presented + [newer.value.refresh];
          refreshed := s.second;
        }
      }
      if refreshed.None? { return presented, None, Some(ExchangeFailed); }
      ApplyToken(refreshed.value);
      if !s.persistOk { return presented, None, Some(PersistFailed); }
      written := refreshed;
    }
  }
}
