/** What every run of the native session protocol keeps. */
module NativeSessionsProofs {
  import opened Common
  import opened NativeSessions

  // ---- The invariant of all runs ----

  /** Stored tokens belong to their session, and a redeemed one is stored nowhere. */
  ghost predicate TokenInv(w: World) {
    && (forall s :: s in w.db.sessions ==>
          w.db.sessions[s].token.sid == s && w.db.sessions[s].token.secret < w.nextSecret && s in w.knownSids)
    && (forall r :: r in w.redeemed ==> IsSpent(w, r))
  }

  ghost predicate IsSpent(w: World, r: Refresh) {
    r.sid in w.db.sessions && r.secret < w.nextSecret && w.db.sessions[r.sid].token != r && w.redeemed[r] == 1
  }

  predicate IsLogIn(w: World, h: Handle) { h in w.open && w.open[h].LoggingIn? }

  /** What an open handler is going to write. */
  ghost predicate OpenInv(w: World) { forall h :: h in w.open ==> OpFits(w, w.open[h]) }

  ghost predicate OpFits(w: World, op: Operation) {
    match op
    case LoggingIn(uid, _, sid, isNew, write) => LogInFits(w, op)
    case Refreshing(token, _, _, _) => token.sid in w.db.sessions
    case SavingSession(sid, write) =>
      sid in w.db.sessions && !write.before.revoked && write.after == write.before.Revoke()
    case SavingUser(uid, change) => uid in w.db.users && ChangeFits(change)
  }

  /** A login writes a token of its own, and the next generation of what it read. */
  ghost predicate LogInFits(w: World, op: Operation)
    requires op.LoggingIn?
  {
    && op.sid in w.knownSids && (op.isNew <==> op.sid !in w.db.sessions)
    && (op.sid in w.db.sessions ==>
          w.db.sessions[op.sid].uid == op.uid && w.db.sessions[op.sid].token != op.write.after.token)
    && op.write.after.token.sid == op.sid && op.write.after.token.secret < w.nextSecret
    && op.write.after.token !in w.redeemed && !op.write.after.revoked && op.write.after.uid == op.uid
    && (if op.isNew then op.write.before == op.write.after
        else && op.write.after.generation == op.write.before.generation + 1
             && op.write.after.token != op.write.before.token)
  }

  /** Whoever turns an account off moves its version; nobody undeletes one. */
  predicate ChangeFits(c: UserWrite) {
    && (c.after.version == c.before.version || c.after.version == c.before.version + 1)
    && ((c.before.enabled && !c.after.enabled) || (!c.before.deleted && c.after.deleted) ==> c.SetsVersion())
    && (c.before.deleted ==> c.after.deleted)
  }

  /** Logins do not share a token or a new session, and the account of an open one stands still. */
  ghost predicate LogInInv(w: World) {
    && (forall h :: IsLogIn(w, h) ==>
          && w.open[h].uid in w.db.users && w.db.users[w.open[h].uid].Active()
          && w.db.users[w.open[h].uid].version == w.open[h].version)
    && (forall h, k :: IsLogIn(w, h) && IsLogIn(w, k) && h != k ==>
          && w.open[h].write.after.token != w.open[k].write.after.token
          && (w.open[h].isNew && w.open[k].isNew ==> w.open[h].sid != w.open[k].sid))
  }

  /** A token was issued for a session that exists and is its user's. */
  ghost predicate HomeInv(w: World) {
    forall a :: a in w.access ==> a.sid in w.db.sessions && w.db.sessions[a.sid].uid == a.uid && a.uid in w.db.users
  }

  ghost predicate Inv(w: World) {
    TokenInv(w) && OpenInv(w) && LogInInv(w) && HomeInv(w) && OwnersInv(w)
  }

  ghost predicate OwnersInv(w: World) { forall s :: s in w.db.sessions ==> w.db.sessions[s].uid in w.db.users }

  /** Whoever is not `uid` keeps account and sessions as they are. */
  ghost predicate SameFor(db: Db, db': Db, uid: Uid) {
    && db'.users.Keys == db.users.Keys && db'.sessions.Keys == db.sessions.Keys
    && (forall u :: u in db.users && u != uid ==> db'.users[u] == db.users[u])
    && (forall s :: s in db.sessions && db.sessions[s].uid != uid ==> db'.sessions[s] == db.sessions[s])
  }

  // ---- Frames ----

  lemma SameLock(w: World, now: nat, uid: Uid)
    ensures IsLocked(w.(now := now), uid) <==> IsLocked(w, uid)
  {
    if IsLocked(w, uid) {
      var h :| h in w.open && w.open[h].LoggingIn? && w.open[h].uid == uid;
      assert h in w.(now := now).open;
    }
  }

  /** Rows keep their owner and stay, and nothing about refresh tokens changes. */
  ghost predicate SameTokens(w: World, w': World) {
    && w'.db.sessions.Keys == w.db.sessions.Keys && w.db.users.Keys <= w'.db.users.Keys
    && (forall s :: s in w.db.sessions ==>
          w'.db.sessions[s].token == w.db.sessions[s].token && w'.db.sessions[s].uid == w.db.sessions[s].uid)
    && w'.redeemed == w.redeemed && w'.nextSecret >= w.nextSecret && w'.knownSids >= w.knownSids
  }

  lemma TokensFrame(w: World, w': World)
    requires TokenInv(w) && OwnersInv(w) && SameTokens(w, w')
    ensures TokenInv(w') && OwnersInv(w')
  {
    forall r | r in w'.redeemed ensures IsSpent(w', r) {
      assert IsSpent(w, r);
    }
  }

  lemma FitsFrame(w: World, w': World, op: Operation)
    requires OpFits(w, op) && SameTokens(w, w')
    ensures OpFits(w', op)
  {
  }

  lemma HomeFrame(w: World, w': World)
    requires HomeInv(w) && SameTokens(w, w') && w'.access == w.access
    ensures HomeInv(w')
  {
  }

  /** A handler opened `h`; no row changed. */
  ghost predicate Opened(w: World, w': World, h: Handle) {
    && h !in w.open && h in w'.open && w.nextSecret <= w'.nextSecret && w.knownSids <= w'.knownSids
    && w' == w.(open := w.open[h := w'.open[h]], nextSecret := w'.nextSecret, knownSids := w'.knownSids)
  }

  /** A login drew its token just now, and its session's identifier if the session is new. */
  ghost predicate IsFresh(w: World, op: Operation) {
    op.LoggingIn? ==>
      && op.write.after.token.secret == w.nextSecret && (op.isNew ==> op.sid !in w.knownSids)
      && op.uid in w.db.users && w.db.users[op.uid].Active() && w.db.users[op.uid].version == op.version
  }

  ghost predicate GoodRead(w: World, w': World, h: Handle) {
    w' == w || (Opened(w, w', h) && OpFits(w', w'.open[h]) && IsFresh(w, w'.open[h]))
  }

  lemma OpenKeepsLogIns(w: World, w': World, h: Handle)
    requires LogInInv(w) && OpenInv(w) && Opened(w, w', h) && IsFresh(w, w'.open[h])
    ensures LogInInv(w')
  {
    forall i, k | IsLogIn(w', i) && IsLogIn(w', k) && i != k
      ensures w'.open[i].write.after.token != w'.open[k].write.after.token
      ensures w'.open[i].isNew && w'.open[k].isNew ==> w'.open[i].sid != w'.open[k].sid
    {
      if i != h { assert OpFits(w, w.open[i]) && IsLogIn(w, i); }
      if k != h { assert OpFits(w, w.open[k]) && IsLogIn(w, k); }
    }
  }

  lemma OpenKeeps(w: World, w': World, h: Handle)
    requires Inv(w) && Opened(w, w', h) && OpFits(w', w'.open[h]) && IsFresh(w, w'.open[h])
    ensures Inv(w')
  {
    TokensFrame(w, w');
    HomeFrame(w, w');
    OpenKeepsLogIns(w, w', h);
    forall k | k in w'.open ensures OpFits(w', w'.open[k]) {
      if k != h { FitsFrame(w, w', w.open[k]); }
    }
  }

  // ---- Reads ----

  lemma LogInReadIsGood(w: World, h: Handle, uid: Uid, device: string, sid: Sid, now: nat)
    requires TokenInv(w) && h !in w.open && uid in w.db.users && w.db.users[uid].Active()
    requires w.db.Finds(uid, device, sid)
    ensures GoodRead(w, ReadLogIn(w, h, uid, device, sid, now), h)
  {
    forall r | r in w.redeemed ensures r.secret < w.nextSecret { assert IsSpent(w, r); }
  }

  lemma RevokeReadIsGood(w: World, h: Handle, sid: Sid)
    requires h !in w.open
    ensures GoodRead(w, ReadRevoke(w, h, sid), h)
  {
  }

  lemma RefreshReadIsGood(w: World, h: Handle, token: Refresh, now: nat)
    requires h !in w.open
    ensures GoodRead(w, ReadRefresh(w, h, token, now), h)
  {
    RevokeReadIsGood(w, h, token.sid);
  }

  lemma AccountReadIsGood(w: World, e: Event)
    requires (e.WebLogoutRead? || e.PasswordRead? || e.EnableRead? || e.DisableRead? || e.DeleteRead?)
    requires e.handle !in w.open
    ensures GoodRead(w, ReadAccount(w, e), e.handle)
  {
  }

  predicate IsRead(e: Event) { !e.CreateUser? && !e.Commit? }

  lemma ReadIsGood(w: World, e: Event)
    requires TokenInv(w) && IsRead(e) && e.handle !in w.open
    ensures GoodRead(w, Read(w, e), e.handle)
  {
    match e
    case LogInRead(h, uid, device, sid, version, password, at) =>
      if w.db.MayLogin(uid, version, password) && w.db.Finds(uid, device, sid) {
        LogInReadIsGood(w, h, uid, device, sid, at);
      }
    case RefreshRead(h, token, at) => RefreshReadIsGood(w, h, token, at);
    case RevokeRead(h, _, sid, _) => RevokeReadIsGood(w, h, sid);
    case LogOutRead(h, access, _) => RevokeReadIsGood(w, h, access.sid);
    case _ => AccountReadIsGood(w, e);
  }

  lemma ReadKeeps(w: World, e: Event)
    requires Inv(w) && IsRead(e) && e.handle !in w.open
    ensures Inv(Read(w, e))
  {
    ReadIsGood(w, e);
    if Read(w, e) != w { OpenKeeps(w, Read(w, e), e.handle); }
  }

  // ---- Commits ----

  /** Handle `h` is closed. */
  ghost predicate Closed(w: World, w': World, h: Handle) { h in w.open && w'.open == w.open - {h} }

  lemma CloseKeepsLogIns(w: World, w': World, h: Handle)
    requires LogInInv(w) && Closed(w, w', h) && w.db.users.Keys <= w'.db.users.Keys
    requires forall k :: IsLogIn(w', k) ==> w'.db.users[w'.open[k].uid] == w.db.users[w'.open[k].uid]
    ensures LogInInv(w')
  {
    forall k | IsLogIn(w', k) ensures IsLogIn(w, k) && w'.open[k] == w.open[k] {}
  }

  /** A commit that changes no refresh token. */
  lemma CloseKeeps(w: World, w': World, h: Handle)
    requires Inv(w) && Closed(w, w', h) && SameTokens(w, w') && w'.access == w.access
    requires forall k :: IsLogIn(w', k) ==> w'.db.users[w'.open[k].uid] == w.db.users[w'.open[k].uid]
    ensures Inv(w')
  {
    TokensFrame(w, w');
    HomeFrame(w, w');
    CloseKeepsLogIns(w, w', h);
    forall k | k in w'.open ensures OpFits(w', w'.open[k]) {
      FitsFrame(w, w', w.open[k]);
    }
  }

  lemma SessionSaveKeeps(w: World, h: Handle)
    requires Inv(w) && h in w.open && w.open[h].SavingSession?
    ensures Inv(CommitOperation(w, h))
  {
    assert OpFits(w, w.open[h]);
    CloseKeeps(w, CommitOperation(w, h), h);
  }

  lemma UserSaveFrame(w: World, h: Handle)
    requires h in w.open && w.open[h].SavingUser? && !IsLocked(w, w.open[h].uid)
    ensures var w' := CommitOperation(w, h);
            && Closed(w, w', h) && SameTokens(w, w') && w'.access == w.access
            && forall k :: IsLogIn(w', k) && w'.open[k].uid in w.db.users ==>
                 w'.open[k].uid in w'.db.users && w'.db.users[w'.open[k].uid] == w.db.users[w'.open[k].uid]
  {
    var w' := CommitOperation(w, h);
    forall k | IsLogIn(w', k) ensures w'.open[k].uid != w.open[h].uid {
      assert k in w.open && w.open[k].LoggingIn?;
    }
  }

  lemma UserSaveKeeps(w: World, h: Handle)
    requires Inv(w) && h in w.open && w.open[h].SavingUser?
    ensures Inv(CommitOperation(w, h))
  {
    if !IsLocked(w, w.open[h].uid) {
      var w' := CommitOperation(w, h);
      UserSaveFrame(w, h);
      forall k | IsLogIn(w', k) ensures w'.open[k].uid in w.db.users {
        assert IsLogIn(w, k);
      }
      CloseKeeps(w, w', h);
    }
  }

  /** A session's token is replaced by one that was never stored, and nothing else happens to tokens. */
  ghost predicate NewToken(w: World, w': World, sid: Sid) {
    && w'.db.sessions.Keys == w.db.sessions.Keys + {sid} && sid in w'.db.sessions && w'.db.users == w.db.users
    && (forall s :: s in w.db.sessions && s != sid ==> w'.db.sessions[s] == w.db.sessions[s])
    && (sid in w.db.sessions ==> w'.db.sessions[sid].uid == w.db.sessions[sid].uid)
    && w'.db.sessions[sid].token.sid == sid && w'.db.sessions[sid].token.secret < w'.nextSecret
    && w'.db.sessions[sid].uid in w.db.users && sid in w'.knownSids
    && w'.nextSecret >= w.nextSecret && w'.knownSids == w.knownSids
  }

  lemma LogInRow(w: World, h: Handle)
    requires OpenInv(w) && LogInInv(w) && IsLogIn(w, h)
    ensures var op, row := w.open[h], SavedSession(w.db, w.open[h]);
            && row.token == op.write.after.token && row.uid == op.uid && row.generation == op.write.after.generation
            && NewToken(w, CommitOperation(w, h), op.sid) && CommitOperation(w, h).db == w.db.WithSession(op.sid, row)
  {
    assert OpFits(w, w.open[h]);
  }

  lemma LogInKeepsTokens(w: World, h: Handle)
    requires Inv(w) && IsLogIn(w, h)
    ensures TokenInv(CommitOperation(w, h)) && OwnersInv(CommitOperation(w, h)) && HomeInv(CommitOperation(w, h))
  {
    var w' := CommitOperation(w, h);
    assert OpFits(w, w.open[h]);
    LogInRow(w, h);
    forall r | r in w'.redeemed ensures IsSpent(w', r) {
      assert IsSpent(w, r);
    }
  }

  lemma LogInKeepsFits(w: World, h: Handle, k: Handle)
    requires Inv(w) && IsLogIn(w, h) && k in w.open && k != h
    ensures OpFits(CommitOperation(w, h), w.open[k])
  {
    var w' := CommitOperation(w, h);
    assert OpFits(w, w.open[h]) && OpFits(w, w.open[k]);
    LogInRow(w, h);
    if w.open[k].LoggingIn? {
      assert IsLogIn(w, k);
      assert w.open[k].isNew ==> w.open[k].sid != w.open[h].sid;
    }
  }

  lemma LogInKeeps(w: World, h: Handle)
    requires Inv(w) && IsLogIn(w, h)
    ensures Inv(CommitOperation(w, h))
  {
    var w' := CommitOperation(w, h);
    LogInKeepsTokens(w, h);
    CloseKeepsLogIns(w, w', h);
    forall k | k in w'.open ensures OpFits(w', w'.open[k]) {
      LogInKeepsFits(w, h, k);
    }
  }

  lemma RotationKeepsTokens(w: World, h: Handle)
    requires Inv(w) && h in w.open && w.open[h].Refreshing? && w.db.Rotates(w.open[h].token, w.open[h].generation)
    ensures TokenInv(CommitOperation(w, h)) && OwnersInv(CommitOperation(w, h)) && HomeInv(CommitOperation(w, h))
  {
    var w' := CommitOperation(w, h);
    var token := w.open[h].token;
    forall r | r in w.redeemed ensures r != token && IsSpent(w, r) {
      assert IsSpent(w, r);
    }
    forall r | r in w'.redeemed ensures IsSpent(w', r) {
      assert r == token || IsSpent(w, r);
    }
  }

  lemma RotationKeepsFits(w: World, h: Handle, k: Handle)
    requires Inv(w) && h in w.open && w.open[h].Refreshing? && w.db.Rotates(w.open[h].token, w.open[h].generation)
    requires k in w.open && k != h
    ensures OpFits(CommitOperation(w, h), w.open[k])
  {
    assert OpFits(w, w.open[k]);
  }

  lemma RefreshKeeps(w: World, h: Handle)
    requires Inv(w) && h in w.open && w.open[h].Refreshing?
    ensures Inv(CommitOperation(w, h))
  {
    var w', op := CommitOperation(w, h), w.open[h];
    if w.db.Rotates(op.token, op.generation) {
      RotationKeepsTokens(w, h);
      CloseKeepsLogIns(w, w', h);
      forall k | k in w'.open ensures OpFits(w', w'.open[k]) {
        RotationKeepsFits(w, h, k);
      }
    } else {
      var done := w.(open := w.open - {h});
      CloseKeeps(w, done, h);
      RevokeReadIsGood(done, h, op.token.sid);
      if w' != done { OpenKeeps(done, w', h); }
    }
  }

  lemma CommitKeeps(w: World, h: Handle)
    requires Inv(w) && h in w.open
    ensures Inv(CommitOperation(w, h))
  {
    match w.open[h]
    case LoggingIn(_, _, _, _, _) => LogInKeeps(w, h);
    case Refreshing(_, _, _, _) => RefreshKeeps(w, h);
    case SavingSession(_, _) => SessionSaveKeeps(w, h);
    case SavingUser(_, _) => UserSaveKeeps(w, h);
  }

  lemma CreateKeeps(w: World, uid: Uid, user: User)
    requires Inv(w) && uid !in w.db.users
    ensures Inv(w.(db := w.db.WithUser(uid, user)))
  {
    var w' := w.(db := w.db.WithUser(uid, user));
    TokensFrame(w, w');
    HomeFrame(w, w');
    forall k | k in w'.open ensures OpFits(w', w'.open[k]) { FitsFrame(w, w', w.open[k]); }
    forall k | IsLogIn(w', k) ensures IsLogIn(w, k) && w'.open[k].uid != uid {
      assert IsLogIn(w, k);
    }
  }

  lemma TickKeeps(w: World, at: nat)
    requires Inv(w)
    ensures Inv(w.(now := at))
  {
    var w' := w.(now := at);
    TokensFrame(w, w');
    HomeFrame(w, w');
    forall k | k in w'.open ensures OpFits(w', w'.open[k]) { FitsFrame(w, w', w.open[k]); }
    forall k | IsLogIn(w', k) ensures IsLogIn(w, k) {}
  }

  lemma StepKeeps(w: World, e: Event)
    requires Inv(w)
    ensures Inv(Step(w, e))
  {
    if w.now <= e.at {
      var w0 := w.(now := e.at);
      TickKeeps(w, e.at);
      if e.Commit? {
        if e.handle in w.open { CommitKeeps(w0, e.handle); }
      } else if e.CreateUser? {
        if e.uid !in w.db.users { CreateKeeps(w0, e.uid, e.user); }
      } else {
        if e.handle !in w.open { ReadKeeps(w0, e); }
      }
    }
  }

  lemma {:induction false} EveryRunKeepsInv(w: World, events: seq<Event>)
    requires Inv(w)
    ensures Inv(Run(w, events))
    decreases |events|
  {
    if events == [] {
      assert Run(w, events) == w;
    } else {
      StepKeeps(w, events[0]);
      EveryRunKeepsInv(Step(w, events[0]), events[1..]);
    }
  }

  ghost predicate Reachable(w: World) { exists events :: w == Run(EMPTY, events) }

  lemma EmptyInv()
    ensures Inv(EMPTY)
  {
  }

  lemma ReachableInv(w: World)
    requires Reachable(w)
    ensures Inv(w)
  {
    EmptyInv();
    var events :| w == Run(EMPTY, events);
    EveryRunKeepsInv(EMPTY, events);
  }

  lemma {:induction false} RunAppend(w: World, events: seq<Event>, e: Event)
    ensures Run(w, events + [e]) == Step(Run(w, events), e)
    decreases |events|
  {
    if events == [] {
      assert events + [e] == [e] && [e][1..] == [];
    } else {
      assert (events + [e])[1..] == events[1..] + [e];
      RunAppend(Step(w, events[0]), events[1..], e);
    }
  }

  lemma ReachableStep(w: World, e: Event)
    requires Reachable(w)
    ensures Reachable(Step(w, e))
  {
    var events :| w == Run(EMPTY, events);
    RunAppend(EMPTY, events, e);
  }

  // ---- Refresh tokens are redeemed once, and replay is fatal ----

  /** However refreshes, logins and revocations interleave, no refresh token is redeemed twice. */
  lemma RedeemedAtMostOnce(w: World, r: Refresh)
    requires Reachable(w)
    ensures w.redeemed[r] <= 1
  {
    ReachableInv(w);
    if r in w.redeemed { assert IsSpent(w, r); }
  }

  /** The handler is going to revoke session `sid`. */
  predicate Revokes(op: Operation, sid: Sid) {
    op.SavingSession? && op.sid == sid && !op.write.before.revoked && op.write.after.revoked
  }

  /** A handle stays what it is until its commit. */
  lemma StepKeepsHandle(w: World, e: Event, h: Handle)
    requires h in w.open && !(e.Commit? && e.handle == h)
    ensures h in Step(w, e).open && Step(w, e).open[h] == w.open[h]
  {
    if e.Commit? && e.handle in w.open && w.now <= e.at {
      CommitKeepsHandle(w.(now := e.at), e.handle, h);
    } else if IsRead(e) && e.handle !in w.open && w.now <= e.at {
      ReadKeepsHandle(w.(now := e.at), e, h);
    }
  }

  lemma CommitKeepsHandle(w: World, k: Handle, h: Handle)
    requires k in w.open && h in w.open && k != h
    ensures h in CommitOperation(w, k).open && CommitOperation(w, k).open[h] == w.open[h]
  {
  }

  lemma ReadKeepsHandle(w: World, e: Event, h: Handle)
    requires IsRead(e) && h in w.open && e.handle !in w.open
    ensures h in Read(w, e).open && Read(w, e).open[h] == w.open[h]
  {
  }

  lemma {:induction false} HandleStays(w: World, events: seq<Event>, h: Handle)
    requires h in w.open && forall i :: 0 <= i < |events| ==> !(events[i].Commit? && events[i].handle == h)
    ensures h in Run(w, events).open && Run(w, events).open[h] == w.open[h]
    decreases |events|
  {
    if events == [] {
      assert Run(w, events) == w;
    } else {
      StepKeepsHandle(w, events[0], h);
      HandleStays(Step(w, events[0]), events[1..], h);
    }
  }

  lemma RevokingCommit(w: World, h: Handle, sid: Sid, at: nat)
    requires Inv(w) && h in w.open && Revokes(w.open[h], sid) && w.now <= at
    ensures var w' := Step(w, Commit(h, at));
            && h !in w'.open && sid in w'.db.sessions && w'.db.sessions[sid].revoked
            && w'.access == w.access && w'.redeemed == w.redeemed
  {
    assert OpFits(w, w.open[h]);
  }

  /**
    Presenting an already redeemed token: its session is revoked already, or the request goes on to
    revoke it, and whatever happens before it commits, its commit leaves the session revoked.
  */
  lemma ReplayRevokes(w: World, r: Refresh, h: Handle, at: nat, events: seq<Event>, later: nat)
    requires Reachable(w) && r in w.redeemed && h !in w.open && w.now <= at
    requires forall i :: 0 <= i < |events| ==> !(events[i].Commit? && events[i].handle == h)
    requires Run(Step(w, RefreshRead(h, r, at)), events).now <= later
    ensures var w1 := Step(w, RefreshRead(h, r, at));
            if h in w1.open
            then
              var w3 := Step(Run(w1, events), Commit(h, later));
              r.sid in w3.db.sessions && w3.db.sessions[r.sid].revoked
            else r.sid in w1.db.sessions && w1.db.sessions[r.sid].revoked
  {
    ReachableInv(w);
    assert IsSpent(w, r);
    var w1 := Step(w, RefreshRead(h, r, at));
    if h in w1.open {
      StepKeeps(w, RefreshRead(h, r, at));
      EveryRunKeepsInv(w1, events);
      HandleStays(w1, events, h);
      RevokingCommit(Run(w1, events), h, r.sid, later);
    }
  }

  /**
    So for a request that read the token in time but lost the race for it: it is issued nothing, and its
    session is revoked already, or the request goes on to revoke it.
  */
  lemma LoserRevokes(w: World, h: Handle, at: nat)
    requires Reachable(w) && h in w.open && w.open[h].Refreshing? && w.now <= at
    requires !w.db.Rotates(w.open[h].token, w.open[h].generation)
    ensures var sid, w' := w.open[h].token.sid, Step(w, Commit(h, at));
            && w'.redeemed == w.redeemed && w'.access == w.access && sid in w'.db.sessions
            && (if h in w'.open then Revokes(w'.open[h], sid) else w'.db.sessions[sid].revoked)
  {
    ReachableInv(w);
    assert OpFits(w, w.open[h]);
  }

  /** A redeemed token has lost every race that is still open. */
  lemma RedeemedHasLost(w: World, h: Handle)
    requires Reachable(w) && h in w.open && w.open[h].Refreshing? && w.open[h].token in w.redeemed
    ensures !w.db.Rotates(w.open[h].token, w.open[h].generation)
  {
    ReachableInv(w);
    assert IsSpent(w, w.open[h].token);
  }

  // ---- Revoked until the next login ----

  /** The event completes a login that had read the session as revoked. */
  ghost predicate BringsBack(w: World, e: Event, sid: Sid) {
    && e.Commit? && IsLogIn(w, e.handle) && w.open[e.handle].sid == sid && w.open[e.handle].write.before.revoked
  }

  lemma CommitLeavesRevoked(w: World, h: Handle, sid: Sid)
    requires Inv(w) && h in w.open && sid in w.db.sessions && w.db.sessions[sid].revoked
    ensures var w' := CommitOperation(w, h);
            && sid in w'.db.sessions
            && (!w'.db.sessions[sid].revoked <==> BringsBack(w, Commit(h, w.now), sid))
            && (forall r: Refresh :: r.sid == sid ==> w'.redeemed[r] == w.redeemed[r])
  {
    assert OpFits(w, w.open[h]);
  }

  /** A revoked session is brought back exactly by the completion of a login that had read it as revoked. */
  lemma RevokedIsLeft(w: World, e: Event, sid: Sid)
    requires Reachable(w) && sid in w.db.sessions && w.db.sessions[sid].revoked && w.now <= e.at
    ensures sid in Step(w, e).db.sessions
    ensures !Step(w, e).db.sessions[sid].revoked <==> BringsBack(w, e, sid)
  {
    ReachableInv(w);
    TickKeeps(w, e.at);
    RevokedStep(w.(now := e.at), e, sid);
  }

  lemma ReadRows(w: World, e: Event)
    requires IsRead(e)
    ensures Read(w, e).db == w.db && Read(w, e).access == w.access && Read(w, e).redeemed == w.redeemed
  {
  }

  lemma RevokedStep(w: World, e: Event, sid: Sid)
    requires Inv(w) && sid in w.db.sessions && w.db.sessions[sid].revoked
    ensures var w' := Apply(w, e);
            && sid in w'.db.sessions && (!w'.db.sessions[sid].revoked <==> BringsBack(w, e, sid))
            && (forall r: Refresh :: r.sid == sid ==> w'.redeemed[r] == w.redeemed[r])
  {
    if e.Commit? {
      if e.handle in w.open { CommitLeavesRevoked(w, e.handle, sid); }
    } else if IsRead(e) {
      ReadRows(w, e);
    }
  }

  /** No login that is under way will bring the session back. */
  ghost predicate NoLogInOf(w: World, sid: Sid) {
    forall h :: IsLogIn(w, h) && w.open[h].sid == sid ==> !w.open[h].write.before.revoked
  }

  lemma NoLogInStep(w: World, e: Event, sid: Sid)
    requires NoLogInOf(w, sid) && !(e.LogInRead? && e.sid == sid)
    ensures NoLogInOf(Apply(w, e), sid)
  {
    var w' := Apply(w, e);
    forall h | IsLogIn(w', h) && w'.open[h].sid == sid ensures !w'.open[h].write.before.revoked {
      assert IsLogIn(w, h) && w.open[h] == w'.open[h];
    }
  }

  /**
    Until the next native login of a revoked session none of its access tokens is accepted and none of
    its refresh tokens is redeemed.
  */
  lemma {:induction false} RevokedUntilLogin(w: World, events: seq<Event>, sid: Sid)
    requires Inv(w) && sid in w.db.sessions && w.db.sessions[sid].revoked && NoLogInOf(w, sid)
    requires forall i :: 0 <= i < |events| ==> !(events[i].LogInRead? && events[i].sid == sid)
    ensures var w' := Run(w, events);
            && sid in w'.db.sessions && w'.db.sessions[sid].revoked
            && (forall a: Access :: a.sid == sid ==> !w'.db.Accepts(a, w'.now))
            && (forall r: Refresh :: r.sid == sid ==> w'.redeemed[r] == w.redeemed[r])
    decreases |events|
  {
    if events == [] {
      assert Run(w, events) == w;
    } else {
      StepKeeps(w, events[0]);
      if w.now <= events[0].at {
        TickKeeps(w, events[0].at);
        RevokedStep(w.(now := events[0].at), events[0], sid);
        TickNoLogIn(w, events[0].at, sid);
        NoLogInStep(w.(now := events[0].at), events[0], sid);
      }
      RevokedUntilLogin(Step(w, events[0]), events[1..], sid);
    }
  }

  lemma TickNoLogIn(w: World, at: nat, sid: Sid)
    requires NoLogInOf(w, sid)
    ensures NoLogInOf(w.(now := at), sid)
  {
    forall h | IsLogIn(w.(now := at), h) ensures IsLogIn(w, h) {}
  }

  // ---- Deleted accounts ----

  lemma CommitKeepsDeleted(w: World, h: Handle, uid: Uid)
    requires OpenInv(w) && h in w.open && uid in w.db.users && w.db.users[uid].deleted
    ensures var w' := CommitOperation(w, h); uid in w'.db.users && w'.db.users[uid].deleted
  {
    assert OpFits(w, w.open[h]);
  }

  /** A deleted account stays deleted in every continuation, so none of its tokens is ever accepted again. */
  lemma {:induction false} DeletedForGood(w: World, events: seq<Event>, uid: Uid)
    requires Inv(w) && uid in w.db.users && w.db.users[uid].deleted
    ensures var w' := Run(w, events);
            && uid in w'.db.users && w'.db.users[uid].deleted
            && forall a: Access :: a.uid == uid ==> !w'.db.Accepts(a, w'.now)
    decreases |events|
  {
    if events == [] {
      assert Run(w, events) == w;
    } else {
      var e := events[0];
      StepKeeps(w, e);
      if w.now <= e.at {
        TickKeeps(w, e.at);
        if e.Commit? && e.handle in w.open {
          CommitKeepsDeleted(w.(now := e.at), e.handle, uid);
        } else if IsRead(e) {
          ReadRows(w.(now := e.at), e);
        }
      }
      DeletedForGood(Step(w, e), events[1..], uid);
    }
  }
}
