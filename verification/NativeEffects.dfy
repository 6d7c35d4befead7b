/** What each handler of the native sessions leaves behind, whatever happens between its read and its commit. */
module NativeEffects {
  import opened Common
  import opened NativeSessions
  import opened NativeSessionsProofs

  /** The handler behind `h` does not complete. */
  ghost predicate Between(events: seq<Event>, h: Handle) {
    forall i :: 0 <= i < |events| ==> !(events[i].Commit? && events[i].handle == h)
  }

  /** `w3` is what the commit of `h` makes of the world, and nothing else: the handler is done. */
  ghost predicate Completes(w: World, e: Event, h: Handle, events: seq<Event>, later: nat, w2: World, w3: World) {
    && w2 == Run(Step(w, e), events) && w2.now <= later && w3 == Step(w2, Commit(h, later)) && Between(events, h)
  }

  // ---- Accounts ----

  lemma AccountCommit(w: World, e: Event, h: Handle, events: seq<Event>, later: nat, w2: World, w3: World)
    requires Reachable(w) && Completes(w, e, h, events, later, w2, w3)
    requires h in Step(w, e).open && Step(w, e).open[h].SavingUser? && !IsLocked(w2, Step(w, e).open[h].uid)
    ensures var op := Step(w, e).open[h];
            && op.uid in w2.db.users && w3.db == SaveUser(w2.db, op.uid, op.change) && w3.access == w2.access
  {
    ReachableInv(w);
    StepKeeps(w, e);
    EveryRunKeepsInv(Step(w, e), events);
    HandleStays(Step(w, e), events, h);
    assert OpFits(w2, w2.open[h]);
    SameLock(w2, later, w2.open[h].uid);
  }

  lemma RevokingSignsOut(db: Db, uid: Uid, change: UserWrite)
    requires uid in db.users && change.revokesAll
    ensures SaveUser(db, uid, change).IsSignedOut(uid) && SameFor(db, SaveUser(db, uid, change), uid)
  {
    var db' := SaveUser(db, uid, change);
    forall s | s in db'.sessions && db'.sessions[s].uid == uid ensures db'.sessions[s].revoked {}
  }

  lemma PlainSaveStays(db: Db, uid: Uid, change: UserWrite)
    requires uid in db.users && !change.revokesAll
    ensures SaveUser(db, uid, change).sessions == db.sessions && SameFor(db, SaveUser(db, uid, change), uid)
  {
  }

  /** A password change signs the member out everywhere, moves the version by one and stores the new hash. */
  lemma PasswordSignsOut(w: World, h: Handle, uid: Uid, password: string, at: nat, events: seq<Event>, later: nat,
                         w2: World, w3: World)
    requires Reachable(w) && h !in w.open && w.db.IsMember(uid) && w.now <= at
    requires Completes(w, PasswordRead(h, uid, password, at), h, events, later, w2, w3) && !IsLocked(w2, uid)
    ensures w3.db.IsSignedOut(uid) && SameFor(w2.db, w3.db, uid) && uid in w2.db.users
    ensures var old', new' := w2.db.users[uid], w3.db.users[uid];
            && new'.version == w.db.users[uid].version + 1
            && (password != w.db.users[uid].password ==> new'.password == password)
            && new'.enabled == old'.enabled && new'.deleted == old'.deleted && new'.isAdmin == old'.isAdmin
  {
    AccountCommit(w, PasswordRead(h, uid, password, at), h, events, later, w2, w3);
    RevokingSignsOut(w2.db, uid, Step(w, PasswordRead(h, uid, password, at)).open[h].change);
  }

  /** Disabling an enabled member signs them out everywhere and moves the version by one. */
  lemma DisablingSignsOut(w: World, h: Handle, uid: Uid, at: nat, events: seq<Event>, later: nat, w2: World, w3: World)
    requires Reachable(w) && h !in w.open && w.db.IsMember(uid) && w.db.users[uid].enabled && w.now <= at
    requires Completes(w, EnableRead(h, uid, false, at), h, events, later, w2, w3) && !IsLocked(w2, uid)
    ensures w3.db.IsSignedOut(uid) && SameFor(w2.db, w3.db, uid) && uid in w2.db.users
    ensures var old', new' := w2.db.users[uid], w3.db.users[uid];
            && !new'.enabled && new'.version == w.db.users[uid].version + 1
            && new'.password == old'.password && new'.deleted == old'.deleted && new'.isAdmin == old'.isAdmin
  {
    AccountCommit(w, EnableRead(h, uid, false, at), h, events, later, w2, w3);
    RevokingSignsOut(w2.db, uid, Step(w, EnableRead(h, uid, false, at)).open[h].change);
  }

  /** Enabling, and disabling once more what was read as disabled, move no version and revoke no session. */
  lemma EnablingRevokesNothing(w: World, h: Handle, uid: Uid, enabled: bool, at: nat, events: seq<Event>, later: nat,
                               w2: World, w3: World)
    requires Reachable(w) && h !in w.open && w.db.IsMember(uid) && w.now <= at && (enabled || !w.db.users[uid].enabled)
    requires Completes(w, EnableRead(h, uid, enabled, at), h, events, later, w2, w3) && !IsLocked(w2, uid)
    ensures w3.db.sessions == w2.db.sessions && SameFor(w2.db, w3.db, uid) && uid in w2.db.users
    ensures var old', new' := w2.db.users[uid], w3.db.users[uid];
            && new'.enabled == (if enabled == w.db.users[uid].enabled then old'.enabled else enabled)
            && new'.version == old'.version && new'.password == old'.password && new'.deleted == old'.deleted
            && new'.isAdmin == old'.isAdmin
  {
    AccountCommit(w, EnableRead(h, uid, enabled, at), h, events, later, w2, w3);
    PlainSaveStays(w2.db, uid, Step(w, EnableRead(h, uid, enabled, at)).open[h].change);
  }

  /** A deletion signs the member out everywhere, moves the version by one and leaves an account that is off. */
  lemma DeletingSignsOut(w: World, h: Handle, uid: Uid, at: nat, events: seq<Event>, later: nat, w2: World, w3: World)
    requires Reachable(w) && h !in w.open && w.db.IsMember(uid) && w.now <= at
    requires Completes(w, DeleteRead(h, uid, at), h, events, later, w2, w3) && !IsLocked(w2, uid)
    ensures w3.db.IsSignedOut(uid) && SameFor(w2.db, w3.db, uid) && uid in w2.db.users
    ensures var new' := w3.db.users[uid];
            && new'.deleted && new'.version == w.db.users[uid].version + 1 && !w3.db.IsMember(uid)
            && (w.db.users[uid].enabled ==> !new'.enabled)
            && (w.db.users[uid].password != "!deleted" ==> new'.password == "!deleted")
  {
    AccountCommit(w, DeleteRead(h, uid, at), h, events, later, w2, w3);
    RevokingSignsOut(w2.db, uid, Step(w, DeleteRead(h, uid, at)).open[h].change);
  }

  /** A web logout moves the version by one, so that no token of the version it read is accepted; sessions stay. */
  lemma WebLogoutMovesVersion(w: World, h: Handle, uid: Uid, at: nat, events: seq<Event>, later: nat,
                              w2: World, w3: World)
    requires Reachable(w) && h !in w.open && uid in w.db.users && w.db.users[uid].Active() && w.now <= at
    requires Completes(w, WebLogoutRead(h, uid, at), h, events, later, w2, w3) && !IsLocked(w2, uid)
    ensures w3.db.sessions == w2.db.sessions && SameFor(w2.db, w3.db, uid) && uid in w2.db.users
    ensures w3.db.users[uid] == w2.db.users[uid].(version := w.db.users[uid].version + 1)
    ensures forall a: Access, now: nat ::
      a.uid == uid && a.version == w.db.users[uid].version ==> !w3.db.Accepts(a, now)
  {
    AccountCommit(w, WebLogoutRead(h, uid, at), h, events, later, w2, w3);
    PlainSaveStays(w2.db, uid, Step(w, WebLogoutRead(h, uid, at)).open[h].change);
  }

  /** The older disable route turns the account off and moves the version by one, and keeps all sessions. */
  lemma OldDisableMovesVersion(w: World, h: Handle, uid: Uid, at: nat, events: seq<Event>, later: nat,
                               w2: World, w3: World)
    requires Reachable(w) && h !in w.open && uid in w.db.users && !w.db.users[uid].isAdmin && w.now <= at
    requires Completes(w, DisableRead(h, uid, at), h, events, later, w2, w3) && !IsLocked(w2, uid)
    ensures w3.db.sessions == w2.db.sessions && SameFor(w2.db, w3.db, uid) && uid in w2.db.users
    ensures var old', new' := w2.db.users[uid], w3.db.users[uid];
            && new'.version == w.db.users[uid].version + 1 && (w.db.users[uid].enabled ==> !new'.enabled)
            && (!w.db.users[uid].enabled ==> new'.enabled == old'.enabled)
            && new'.password == old'.password && new'.deleted == old'.deleted && new'.isAdmin == old'.isAdmin
  {
    AccountCommit(w, DisableRead(h, uid, at), h, events, later, w2, w3);
    PlainSaveStays(w2.db, uid, Step(w, DisableRead(h, uid, at)).open[h].change);
  }

  // ---- Sessions ----

  lemma HandleCommit(w: World, e: Event, h: Handle, events: seq<Event>, later: nat, w2: World, w3: World)
    requires Reachable(w) && Completes(w, e, h, events, later, w2, w3) && h in Step(w, e).open
    ensures h in w2.open && w2.open[h] == Step(w, e).open[h] && Inv(w2) && OpFits(w2, w2.open[h])
    ensures w3 == CommitOperation(w2.(now := later), h) && Inv(w2.(now := later))
  {
    HandleWaits(w, e, h, events);
    TickKeeps(w2, later);
  }

  lemma HandleWaits(w: World, e: Event, h: Handle, events: seq<Event>)
    requires Reachable(w) && h in Step(w, e).open && Between(events, h)
    ensures var w2 := Run(Step(w, e), events);
            Inv(w2) && h in w2.open && w2.open[h] == Step(w, e).open[h] && OpFits(w2, w2.open[h])
  {
    ReachableInv(w);
    StepKeeps(w, e);
    EveryRunKeepsInv(Step(w, e), events);
    HandleStays(Step(w, e), events, h);
  }

  /** What a revocation leaves of the session that was read. */
  ghost predicate IsRevokedBy(w: World, sid: Sid, w2: World, w3: World) {
    && sid in w.db.sessions && sid in w2.db.sessions && w3.access == w2.access && w3.db.users == w2.db.users
    && w3.db.sessions
       == w2.db.sessions[sid := w2.db.sessions[sid].(revoked := true, generation := w.db.sessions[sid].generation + 1)]
  }

  lemma RevocationCommit(w: World, e: Event, h: Handle, sid: Sid, events: seq<Event>, later: nat, w2: World, w3: World)
    requires Reachable(w) && Completes(w, e, h, events, later, w2, w3) && h in Step(w, e).open
    requires sid in w.db.sessions && !w.db.sessions[sid].revoked
    requires var op := Step(w, e).open[h];
             op.SavingSession? && op.sid == sid && op.write == RevokeWrite(w.db.sessions[sid])
    ensures IsRevokedBy(w, sid, w2, w3)
  {
    HandleCommit(w, e, h, events, later, w2, w3);
  }

  /** A user revokes one of their own sessions: it is revoked and its generation is one above what was read. */
  lemma DeviceRevoked(w: World, h: Handle, access: Access, sid: Sid, at: nat, events: seq<Event>, later: nat,
                      w2: World, w3: World)
    requires Reachable(w) && h !in w.open && w.now <= at && access in w.access && w.db.Accepts(access, at)
    requires sid in w.db.sessions && w.db.sessions[sid].uid == access.uid && !w.db.sessions[sid].revoked
    requires Completes(w, RevokeRead(h, access, sid, at), h, events, later, w2, w3)
    ensures IsRevokedBy(w, sid, w2, w3)
  {
    RevocationCommit(w, RevokeRead(h, access, sid, at), h, sid, events, later, w2, w3);
  }

  /** A logout revokes the session of the token it came with. */
  lemma LoggedOut(w: World, h: Handle, access: Access, at: nat, events: seq<Event>, later: nat, w2: World, w3: World)
    requires Reachable(w) && h !in w.open && w.now <= at && access in w.access && w.db.Accepts(access, at)
    requires Completes(w, LogOutRead(h, access, at), h, events, later, w2, w3)
    ensures IsRevokedBy(w, access.sid, w2, w3)
  {
    RevocationCommit(w, LogOutRead(h, access, at), h, access.sid, events, later, w2, w3);
  }

  /** A token that is not the current one revokes its session. */
  lemma ReplayRevoked(w: World, h: Handle, token: Refresh, at: nat, events: seq<Event>, later: nat,
                      w2: World, w3: World)
    requires Reachable(w) && h !in w.open && w.now <= at
    requires token.sid in w.db.sessions && w.db.sessions[token.sid].token != token && !w.db.sessions[token.sid].revoked
    requires Completes(w, RefreshRead(h, token, at), h, events, later, w2, w3)
    ensures IsRevokedBy(w, token.sid, w2, w3)
  {
    RevocationCommit(w, RefreshRead(h, token, at), h, token.sid, events, later, w2, w3);
  }

  /**
    A login that finds the account as it was verified opens a session for the device, or takes over the one
    there is. The session carries the token that the login drew and lasts for 30 days; the access token lasts
    for 15 minutes.
  */
  lemma LoginOpensSession(w: World, h: Handle, uid: Uid, device: string, sid: Sid, version: nat, password: string,
                          at: nat, events: seq<Event>, later: nat, w2: World, w3: World)
    requires Reachable(w) && h !in w.open && w.now <= at && !IsLocked(w, uid)
    requires uid in w.db.users && w.db.users[uid].enabled && !w.db.users[uid].deleted
    requires w.db.users[uid].version == version && w.db.users[uid].password == password
    requires if sid in w.db.sessions then w.db.sessions[sid].uid == uid && w.db.sessions[sid].device == device
             else sid !in w.knownSids
                  && forall s :: s in w.db.sessions ==> w.db.sessions[s].uid != uid || w.db.sessions[s].device != device
    requires Completes(w, LogInRead(h, uid, device, sid, version, password, at), h, events, later, w2, w3)
    ensures sid in w3.db.sessions && w3.db.users == w2.db.users && w3.redeemed == w2.redeemed
    ensures w3.db.sessions == w2.db.sessions[sid := w3.db.sessions[sid]]
    ensures var row := w3.db.sessions[sid];
            && row.uid == uid && row.token == Refresh(sid, w.nextSecret)
            && w3.access
               == w2.access + {Access(uid, version, sid, row.generation, (later + 900 * 1_000_000) / 1_000_000)}
            && if sid in w.db.sessions
               then && row.generation == w.db.sessions[sid].generation + 1
                    && (w.db.sessions[sid].revoked ==> !row.revoked)
                    && (w.db.sessions[sid].expiresAt != at + 30 * 86_400 * 1_000_000 ==>
                          row.expiresAt == at + 30 * 86_400 * 1_000_000)
               else row == Session(uid, device, row.token, 1, at + 30 * 86_400 * 1_000_000, false)
  {
    var e := LogInRead(h, uid, device, sid, version, password, at);
    assert sid in w.db.sessions ==> Refresh(sid, w.nextSecret) != w.db.sessions[sid].token by { ReachableInv(w); }
    LoginReads(w, h, uid, device, sid, version, password, at);
    HandleCommit(w, e, h, events, later, w2, w3);
    LogInRow(w2.(now := later), h);
  }

  lemma LoginReads(w: World, h: Handle, uid: Uid, device: string, sid: Sid, version: nat, password: string, at: nat)
    requires h !in w.open && w.now <= at && !IsLocked(w, uid) && w.db.MayLogin(uid, version, password)
    requires w.db.Finds(uid, device, sid) && (sid in w.db.sessions || sid !in w.knownSids)
    ensures var w' := Step(w, LogInRead(h, uid, device, sid, version, password, at));
            && h in w'.open
            && w'.open[h] == if sid in w.db.sessions
                             then LoggingIn(uid, version, sid, false,
                                            LogInWrite(w.db.sessions[sid], sid, w.nextSecret, at))
                             else var row := NewSession(uid, device, sid, w.nextSecret, at);
                                  LoggingIn(uid, version, sid, true, SessionWrite(row, row))
  {
    SameLock(w, at, uid);
  }

  /**
    A refresh that finds nothing changed at its commit stores a fresh token for 30 days from its read, moves the
    generation by one and hands out an access token for 15 minutes, with the account version that it read.
  */
  lemma RefreshRotates(w: World, h: Handle, token: Refresh, at: nat, events: seq<Event>, later: nat,
                       w2: World, w3: World)
    requires Reachable(w) && h !in w.open && w.now <= at && token.sid in w.db.sessions
    requires var item := w.db.sessions[token.sid];
             && item.token == token && !item.revoked && item.expiresAt > at && item.uid in w.db.users
             && w.db.users[item.uid].enabled && !w.db.users[item.uid].deleted
    requires Completes(w, RefreshRead(h, token, at), h, events, later, w2, w3) && token.sid in w2.db.sessions
    requires var row := w2.db.sessions[token.sid];
             row.token == token && row.generation == w.db.sessions[token.sid].generation && !row.revoked
    ensures w3.redeemed == w2.redeemed + multiset{token} && w3.db.users == w2.db.users
    ensures var uid, g := w2.db.sessions[token.sid].uid, w.db.sessions[token.sid].generation;
            && w3.db.sessions
               == w2.db.sessions[token.sid := w2.db.sessions[token.sid].(
                                   token := Refresh(token.sid, w2.nextSecret), generation := g + 1,
                                   expiresAt := at + 30 * 86_400 * 1_000_000)]
            && w3.access == w2.access + {Access(uid, w.db.users[w.db.sessions[token.sid].uid].version, token.sid, g + 1,
                                                (later + 900 * 1_000_000) / 1_000_000)}
  {
    RefreshReads(w, h, token, at);
    HandleCommit(w, RefreshRead(h, token, at), h, events, later, w2, w3);
    RefreshCommits(w2.(now := later), h);
  }

  lemma RefreshReads(w: World, h: Handle, token: Refresh, at: nat)
    requires h !in w.open && w.now <= at && token.sid in w.db.sessions
    requires var item := w.db.sessions[token.sid];
             && item.token == token && !item.revoked && item.expiresAt > at && item.uid in w.db.users
             && w.db.users[item.uid].enabled && !w.db.users[item.uid].deleted
    ensures var item, w' := w.db.sessions[token.sid], Step(w, RefreshRead(h, token, at));
            h in w'.open && w'.open[h] == Refreshing(token, item.generation, w.db.users[item.uid].version, at)
  {
  }

  lemma RefreshCommits(w: World, h: Handle)
    requires h in w.open && w.open[h].Refreshing? && w.open[h].token.sid in w.db.sessions
    requires var row := w.db.sessions[w.open[h].token.sid];
             row.token == w.open[h].token && row.generation == w.open[h].generation && !row.revoked
    ensures var w', op := CommitOperation(w, h), w.open[h];
            var sid := op.token.sid;
            && w'.redeemed == w.redeemed + multiset{op.token} && w'.db.users == w.db.users
            && w'.db.sessions
               == w.db.sessions[sid := w.db.sessions[sid].(
                                  token := Refresh(sid, w.nextSecret), generation := op.generation + 1,
                                  expiresAt := op.readAt + 30 * 86_400 * 1_000_000)]
            && w'.access == w.access + {Access(w.db.sessions[sid].uid, op.version, sid, op.generation + 1,
                                               (w.now + 900 * 1_000_000) / 1_000_000)}
  {
  }

  // ---- Refusals ----

  /** A login is refused when the account is off or is no longer what was verified. */
  lemma LoginRefused(w: World, h: Handle, uid: Uid, device: string, sid: Sid, version: nat, password: string, at: nat)
    requires h !in w.open && w.now <= at
    requires uid in w.db.users ==>
               var user := w.db.users[uid];
               !user.enabled || user.deleted || user.version != version || user.password != password
    ensures Step(w, LogInRead(h, uid, device, sid, version, password, at)) == w.(now := at)
  {
  }

  /** A refresh with a current token is refused when the session is revoked or has run out, or the account is off. */
  lemma RefreshRefused(w: World, h: Handle, token: Refresh, at: nat)
    requires h !in w.open && w.now <= at
    requires token.sid in w.db.sessions ==>
               var item := w.db.sessions[token.sid];
               && (item.token != token ==> item.revoked)
               && (item.token == token ==>
                     || item.revoked || item.expiresAt <= at || item.uid !in w.db.users
                     || !w.db.users[item.uid].enabled || w.db.users[item.uid].deleted)
    ensures Step(w, RefreshRead(h, token, at)) == w.(now := at)
  {
  }

  /** Nobody revokes a session with a token that is not accepted, nor one of another user. */
  lemma RevocationRefused(w: World, h: Handle, access: Access, sid: Sid, at: nat)
    requires h !in w.open && w.now <= at
    requires w.db.Accepts(access, at) ==> sid in w.db.sessions && w.db.sessions[sid].uid != access.uid
    ensures Step(w, RevokeRead(h, access, sid, at)) == w.(now := at)
    ensures !w.db.Accepts(access, at) ==> Step(w, LogOutRead(h, access, at)) == w.(now := at)
  {
  }

  /** The member routes leave administrators and deleted accounts alone. */
  lemma MembersOnly(w: World, h: Handle, uid: Uid, password: string, enabled: bool, at: nat)
    requires h !in w.open && w.now <= at
    requires uid in w.db.users ==> w.db.users[uid].isAdmin || w.db.users[uid].deleted
    ensures Step(w, PasswordRead(h, uid, password, at)) == w.(now := at)
    ensures Step(w, EnableRead(h, uid, enabled, at)) == w.(now := at)
    ensures Step(w, DeleteRead(h, uid, at)) == w.(now := at)
  {
  }

  // ---- Lifetimes ----

  /** No access token outlives the next 15 minutes, and no session the next 30 days. */
  ghost predicate LifetimeInv(w: World) {
    && (forall a :: a in w.access ==> a.expires <= (w.now + 900 * 1_000_000) / 1_000_000)
    && (forall s :: s in w.db.sessions ==> w.db.sessions[s].expiresAt <= w.now + 30 * 86_400 * 1_000_000)
    && (forall h :: h in w.open ==> OpLasts(w.open[h], w.now))
  }

  predicate OpLasts(op: Operation, now: nat) {
    && (op.LoggingIn? ==> op.write.after.expiresAt <= now + 30 * 86_400 * 1_000_000)
    && (op.Refreshing? ==> op.readAt <= now)
    && (op.SavingSession? ==> op.write.after.expiresAt == op.write.before.expiresAt)
  }

  lemma CommitKeepsLifetimes(w: World, h: Handle)
    requires LifetimeInv(w) && h in w.open
    ensures LifetimeInv(CommitOperation(w, h))
  {
    assert OpLasts(w.open[h], w.now);
  }

  lemma ReadKeepsLifetimes(w: World, e: Event)
    requires LifetimeInv(w) && IsRead(e) && e.handle !in w.open && e.at == w.now
    ensures LifetimeInv(Read(w, e))
  {
    ReadRows(w, e);
    ReadLasts(w, e);
    forall k | k in Read(w, e).open ensures OpLasts(Read(w, e).open[k], w.now) {
      if k in w.open { ReadKeepsHandle(w, e, k); }
    }
  }

  lemma ReadLasts(w: World, e: Event)
    requires IsRead(e) && e.handle !in w.open && e.at == w.now
    ensures Read(w, e).now == w.now
    ensures forall k :: k in Read(w, e).open ==> k in w.open || OpLasts(Read(w, e).open[k], w.now)
  {
  }

  lemma StepKeepsLifetimes(w: World, e: Event)
    requires LifetimeInv(w)
    ensures LifetimeInv(Step(w, e)) && w.now <= Step(w, e).now
  {
    if w.now <= e.at {
      var w0 := w.(now := e.at);
      if e.Commit? {
        if e.handle in w.open { CommitKeepsLifetimes(w0, e.handle); }
      } else if IsRead(e) {
        if e.handle !in w.open { ReadKeepsLifetimes(w0, e); }
      }
    }
  }

  lemma {:induction false} RunKeepsLifetimes(w: World, events: seq<Event>)
    requires LifetimeInv(w)
    ensures LifetimeInv(Run(w, events)) && w.now <= Run(w, events).now
    decreases |events|
  {
    if events == [] {
      assert Run(w, events) == w;
    } else {
      StepKeepsLifetimes(w, events[0]);
      RunKeepsLifetimes(Step(w, events[0]), events[1..]);
    }
  }

  /** An access token that has been handed out is rejected 15 minutes later and ever after, whatever happens. */
  lemma AccessLastsQuarterHour(w: World, a: Access, db: Db, later: nat)
    requires Reachable(w) && a in w.access && w.now + 900 * 1_000_000 <= later
    ensures !db.Accepts(a, later)
  {
    var events :| w == Run(EMPTY, events);
    RunKeepsLifetimes(EMPTY, events);
    assert WholeSecond(w.now + 900 * 1_000_000) <= WholeSecond(later);
  }

  /** A session ends within 30 days unless it is renewed: from then on none of its tokens works. */
  lemma SessionLastsThirtyDays(w: World, sid: Sid, later: nat)
    requires Reachable(w) && sid in w.db.sessions && w.now + 30 * 86_400 * 1_000_000 <= later
    ensures forall a: Access :: a.sid == sid ==> !w.db.Accepts(a, later)
    ensures forall r: Refresh :: r.sid == sid ==> !w.db.MayRefresh(r, later)
  {
    var events :| w == Run(EMPTY, events);
    RunKeepsLifetimes(EMPTY, events);
  }
}
