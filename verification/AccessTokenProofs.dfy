/** When a rejected access token stays rejected, and exactly when it does not. */
module AccessTokenProofs {
  import opened Common
  import opened NativeSessions
  import opened NativeSessionsProofs

  // ---- Exactly when an issued token is accepted again ----

  /**
    The commit that makes a rejected token acceptable. It is a login or a refresh that arrives at the
    token's generation once more, or an account save that arrives at its version on an active account.
  */
  ghost predicate Revives(w: World, e: Event, a: Access) {
    && e.Commit? && e.handle in w.open && a.expires > WholeSecond(e.at)
    && match w.open[e.handle]
       case LoggingIn(uid, version, sid, _, write) =>
         && sid == a.sid && version == a.version && sid in w.db.sessions
         && write.before.generation + 1 == a.generation && (write.before.revoked || !w.db.sessions[sid].revoked)
         && write.Onto(w.db.sessions[sid]).expiresAt > e.at
       case Refreshing(token, generation, _, readAt) =>
         && token.sid == a.sid && w.db.Rotates(token, generation) && generation + 1 == a.generation
         && w.db.AcceptsAccount(a) && readAt + SESSION_LIFETIME > e.at
       case SavingSession(_, _) => false
       case SavingUser(uid, change) =>
         && uid == a.uid && uid in w.db.users && !IsLocked(w, uid) && !change.revokesAll && w.db.AcceptsSession(a, e.at)
         && (if change.SetsVersion() then change.before.version + 1 else w.db.users[uid].version) == a.version
         && change.Onto(w.db.users[uid]).Active()
  }

  lemma LaterSecondIsLater(now: nat, later: nat)
    requires now <= later
    ensures WholeSecond(now) <= WholeSecond(later)
  {
  }

  /** Time alone revives nothing. */
  lemma DeadLater(db: Db, a: Access, now: nat, later: nat)
    requires now <= later && db.Accepts(a, later)
    ensures db.Accepts(a, now)
  {
    LaterSecondIsLater(now, later);
  }

  lemma LogInRevives(w: World, h: Handle, a: Access)
    requires Inv(w) && IsLogIn(w, h) && a in w.access && !w.db.Accepts(a, w.now)
    ensures CommitOperation(w, h).db.Accepts(a, w.now) <==> Revives(w, Commit(h, w.now), a)
  {
    assert OpFits(w, w.open[h]);
    LogInRow(w, h);
    var op := w.open[h];
    if op.sid == a.sid {
      assert a.sid in w.db.sessions && op.uid == a.uid;
    }
  }

  lemma RefreshRevives(w: World, h: Handle, a: Access)
    requires Inv(w) && h in w.open && w.open[h].Refreshing? && a in w.access && !w.db.Accepts(a, w.now)
    ensures CommitOperation(w, h).db.Accepts(a, w.now) <==> Revives(w, Commit(h, w.now), a)
  {
  }

  lemma SessionSaveRevivesNone(w: World, h: Handle, a: Access)
    requires Inv(w) && h in w.open && w.open[h].SavingSession? && !w.db.Accepts(a, w.now)
    ensures !CommitOperation(w, h).db.Accepts(a, w.now)
  {
    assert OpFits(w, w.open[h]);
  }

  lemma UserSaveRevives(w: World, h: Handle, a: Access)
    requires Inv(w) && h in w.open && w.open[h].SavingUser? && a in w.access && !w.db.Accepts(a, w.now)
    ensures CommitOperation(w, h).db.Accepts(a, w.now) <==> Revives(w, Commit(h, w.now), a)
  {
    assert OpFits(w, w.open[h]);
  }

  lemma CommitRevives(w: World, h: Handle, a: Access)
    requires Inv(w) && h in w.open && a in w.access && !w.db.Accepts(a, w.now)
    ensures CommitOperation(w, h).db.Accepts(a, w.now) <==> Revives(w, Commit(h, w.now), a)
  {
    match w.open[h]
    case LoggingIn(_, _, _, _, _) => LogInRevives(w, h, a);
    case Refreshing(_, _, _, _) => RefreshRevives(w, h, a);
    case SavingSession(_, _) => SessionSaveRevivesNone(w, h, a);
    case SavingUser(_, _) => UserSaveRevives(w, h, a);
  }

  lemma AnyTime(w: World, now: nat, e: Event, a: Access)
    ensures Revives(w.(now := now), e, a) <==> Revives(w, e, a)
  {
  }

  /** An issued token that is rejected is accepted after one more event exactly if that event revives it. */
  lemma RevivedExactly(w: World, e: Event, a: Access)
    requires Reachable(w) && a in w.access && !w.db.Accepts(a, w.now) && w.now <= e.at
    ensures Step(w, e).db.Accepts(a, e.at) <==> Revives(w, e, a)
  {
    ReachableInv(w);
    TickKeeps(w, e.at);
    var w0 := w.(now := e.at);
    if w0.db.Accepts(a, e.at) { DeadLater(w.db, a, w.now, e.at); }
    AnyTime(w, e.at, e, a);
    if e.Commit? {
      if e.handle in w.open { CommitRevives(w0, e.handle, a); }
    } else if IsRead(e) {
      ReadRows(w0, e);
    } else {
      assert a.uid in w.db.users;
    }
  }

  // ---- Runs without stale saves ----

  /** The event completes no save of a generation or version over a row whose own has moved since the read. */
  ghost predicate IsCareful(w: World, e: Event) {
    e.Commit? && e.handle in w.open ==>
      match w.open[e.handle]
      case LoggingIn(_, _, sid, isNew, write) =>
        isNew || (sid in w.db.sessions && write.before.generation == w.db.sessions[sid].generation)
      case Refreshing(_, _, _, _) => true
      case SavingSession(sid, write) =>
        sid in w.db.sessions && write.before.generation == w.db.sessions[sid].generation
      case SavingUser(uid, change) =>
        change.SetsVersion() && !IsLocked(w, uid) ==>
          uid in w.db.users && change.before.version == w.db.users[uid].version
  }

  ghost predicate IsCarefulRun(w: World, events: seq<Event>)
    decreases |events|
  {
    events == [] || (IsCareful(w, events[0]) && IsCarefulRun(Step(w, events[0]), events[1..]))
  }

  /**
    (generation, version) is not ahead of the tables, and behind them once the session is revoked or the
    account is off.
  */
  ghost predicate Behind(db: Db, sid: Sid, uid: Uid, generation: nat, version: nat) {
    && sid in db.sessions && db.sessions[sid].uid == uid && uid in db.users
    && generation <= db.sessions[sid].generation && version <= db.users[uid].version
    && (db.sessions[sid].revoked ==> generation < db.sessions[sid].generation)
    && (!db.users[uid].Active() ==> version < db.users[uid].version)
  }

  ghost predicate AccessInv(w: World) {
    forall a :: a in w.access ==> Behind(w.db, a.sid, a.uid, a.generation, a.version)
  }

  /** What open handlers have read was the row once, and the row has only moved on. */
  ghost predicate ReadInv(w: World) { forall h :: h in w.open ==> ReadFits(w.db, w.open[h]) }

  ghost predicate ReadFits(db: Db, op: Operation) {
    match op
    case LoggingIn(_, _, sid, isNew, write) =>
      isNew || (sid in db.sessions && SessionEvolves(write.before, db.sessions[sid]))
    case Refreshing(token, generation, version, _) =>
      token.sid in db.sessions && Behind(db, token.sid, db.sessions[token.sid].uid, generation, version)
    case SavingSession(sid, write) => sid in db.sessions && SessionEvolves(write.before, db.sessions[sid])
    case SavingUser(_, _) => true
  }

  ghost predicate CarefulInv(w: World) { AccessInv(w) && ReadInv(w) }

  // ---- What careful steps never undo ----

  ghost predicate UserEvolves(u: User, u': User) {
    u.version <= u'.version && (!u'.Active() && u.Active() ==> u.version < u'.version)
  }

  ghost predicate SessionEvolves(s: Session, s': Session) {
    && s.uid == s'.uid && s.generation <= s'.generation
    && (s'.generation == s.generation ==> s'.expiresAt == s.expiresAt && s'.revoked == s.revoked)
  }

  ghost predicate Evolves(db: Db, db': Db) {
    && (forall u :: u in db.users ==> u in db'.users && UserEvolves(db.users[u], db'.users[u]))
    && (forall s :: s in db.sessions ==> s in db'.sessions && SessionEvolves(db.sessions[s], db'.sessions[s]))
  }

  lemma EvolvesTransitively(a: Db, b: Db, c: Db)
    requires Evolves(a, b) && Evolves(b, c)
    ensures Evolves(a, c)
  {
    forall u | u in a.users ensures u in c.users && UserEvolves(a.users[u], c.users[u]) {
      assert UserEvolves(a.users[u], b.users[u]) && UserEvolves(b.users[u], c.users[u]);
    }
    forall s | s in a.sessions ensures s in c.sessions && SessionEvolves(a.sessions[s], c.sessions[s]) {
      assert SessionEvolves(a.sessions[s], b.sessions[s]) && SessionEvolves(b.sessions[s], c.sessions[s]);
    }
  }

  /** Whatever lags behind the tables keeps lagging behind them. */
  lemma BehindStays(db: Db, db': Db, sid: Sid, uid: Uid, generation: nat, version: nat)
    requires Evolves(db, db') && Behind(db, sid, uid, generation, version)
    ensures Behind(db', sid, uid, generation, version)
  {
    assert SessionEvolves(db.sessions[sid], db'.sessions[sid]);
    assert UserEvolves(db.users[uid], db'.users[uid]);
  }

  lemma ReadFitsStays(db: Db, db': Db, op: Operation)
    requires Evolves(db, db') && ReadFits(db, op)
    ensures ReadFits(db', op)
  {
    match op
    case LoggingIn(_, _, sid, isNew, write) =>
      if !isNew { assert SessionEvolves(db.sessions[sid], db'.sessions[sid]); }
    case Refreshing(token, generation, version, _) =>
      assert SessionEvolves(db.sessions[token.sid], db'.sessions[token.sid]);
      BehindStays(db, db', token.sid, db.sessions[token.sid].uid, generation, version);
    case SavingSession(sid, _) => assert SessionEvolves(db.sessions[sid], db'.sessions[sid]);
    case SavingUser(_, _) =>
  }

  lemma RevokeAllEvolves(db: Db, uid: Uid)
    ensures Evolves(db, db.RevokeAll(uid))
  {
  }

  lemma UserSaveEvolves(db: Db, uid: Uid, change: UserWrite)
    requires uid in db.users && ChangeFits(change)
    requires change.SetsVersion() ==> change.before.version == db.users[uid].version
    ensures Evolves(db, SaveUser(db, uid, change))
  {
    var saved := db.WithUser(uid, change.Onto(db.users[uid]));
    assert UserEvolves(db.users[uid], saved.users[uid]);
    RevokeAllEvolves(saved, uid);
    EvolvesTransitively(db, saved, saved.RevokeAll(uid));
  }

  lemma LogInEvolves(w: World, h: Handle)
    requires Inv(w) && IsLogIn(w, h) && IsCareful(w, Commit(h, w.now))
    ensures Evolves(w.db, CommitOperation(w, h).db)
  {
    assert OpFits(w, w.open[h]);
    LogInRow(w, h);
  }

  lemma SaveEvolves(w: World, h: Handle)
    requires Inv(w) && h in w.open && (w.open[h].SavingSession? || w.open[h].Refreshing?)
    requires IsCareful(w, Commit(h, w.now))
    ensures Evolves(w.db, CommitOperation(w, h).db)
  {
    assert OpFits(w, w.open[h]);
  }

  lemma CommitEvolves(w: World, h: Handle)
    requires Inv(w) && h in w.open && IsCareful(w, Commit(h, w.now))
    ensures Evolves(w.db, CommitOperation(w, h).db)
  {
    assert OpFits(w, w.open[h]);
    match w.open[h]
    case LoggingIn(_, _, _, _, _) => LogInEvolves(w, h);
    case SavingUser(uid, change) => if !IsLocked(w, uid) { UserSaveEvolves(w.db, uid, change); }
    case _ => SaveEvolves(w, h);
  }

  // ---- Careful steps keep every token and every read behind ----

  /** A token that a login hands out matches the tables: the login read the row as it still is. */
  lemma LogInIssues(w: World, h: Handle, a: Access)
    requires Inv(w) && ReadInv(w) && IsLogIn(w, h) && IsCareful(w, Commit(h, w.now))
    requires a in CommitOperation(w, h).access && a !in w.access
    ensures Behind(CommitOperation(w, h).db, a.sid, a.uid, a.generation, a.version)
  {
    assert OpFits(w, w.open[h]) && ReadFits(w.db, w.open[h]);
    LogInRow(w, h);
  }

  lemma RefreshIssues(w: World, h: Handle, a: Access)
    requires Inv(w) && ReadInv(w) && h in w.open && w.open[h].Refreshing?
    requires a in CommitOperation(w, h).access && a !in w.access
    ensures Behind(CommitOperation(w, h).db, a.sid, a.uid, a.generation, a.version)
  {
    assert ReadFits(w.db, w.open[h]);
  }

  lemma CommitIssues(w: World, h: Handle, a: Access)
    requires Inv(w) && ReadInv(w) && h in w.open && IsCareful(w, Commit(h, w.now))
    requires a in CommitOperation(w, h).access && a !in w.access
    ensures Behind(CommitOperation(w, h).db, a.sid, a.uid, a.generation, a.version)
  {
    if w.open[h].LoggingIn? { LogInIssues(w, h, a); } else { RefreshIssues(w, h, a); }
  }

  /** The only handle a commit can leave open is its own, to revoke what it has just read. */
  lemma CommitReads(w: World, h: Handle, k: Handle)
    requires h in w.open && k in CommitOperation(w, h).open
    ensures k in w.open
    ensures var w' := CommitOperation(w, h); w'.open[k] == w.open[k] || ReadFits(w'.db, w'.open[k])
  {
  }

  lemma CommitKeepsCareful(w: World, h: Handle)
    requires Inv(w) && CarefulInv(w) && h in w.open && IsCareful(w, Commit(h, w.now))
    ensures CarefulInv(CommitOperation(w, h))
  {
    var w' := CommitOperation(w, h);
    CommitEvolves(w, h);
    forall a | a in w'.access ensures Behind(w'.db, a.sid, a.uid, a.generation, a.version) {
      if a in w.access {
        BehindStays(w.db, w'.db, a.sid, a.uid, a.generation, a.version);
      } else {
        CommitIssues(w, h, a);
      }
    }
    forall k | k in w'.open ensures ReadFits(w'.db, w'.open[k]) {
      CommitReads(w, h, k);
      ReadFitsStays(w.db, w'.db, w.open[k]);
    }
  }

  lemma ReadReads(w: World, e: Event)
    requires Inv(w) && IsRead(e) && e.handle !in w.open && e.handle in Read(w, e).open
    ensures ReadFits(w.db, Read(w, e).open[e.handle])
  {
  }

  lemma ReadKeepsCareful(w: World, e: Event)
    requires Inv(w) && CarefulInv(w) && IsRead(e) && e.handle !in w.open
    ensures CarefulInv(Read(w, e))
  {
    ReadRows(w, e);
    ReadIsGood(w, e);
    forall k | k in Read(w, e).open ensures ReadFits(w.db, Read(w, e).open[k]) {
      if k == e.handle { ReadReads(w, e); } else { assert k in w.open; }
    }
  }

  lemma CreateKeepsCareful(w: World, uid: Uid, user: User)
    requires CarefulInv(w) && uid !in w.db.users
    ensures CarefulInv(w.(db := w.db.WithUser(uid, user))) && Evolves(w.db, w.db.WithUser(uid, user))
  {
    var db' := w.db.WithUser(uid, user);
    forall a | a in w.access ensures Behind(db', a.sid, a.uid, a.generation, a.version) {
      BehindStays(w.db, db', a.sid, a.uid, a.generation, a.version);
    }
    forall k | k in w.open ensures ReadFits(db', w.open[k]) { ReadFitsStays(w.db, db', w.open[k]); }
  }

  /** What a careful step keeps. */
  ghost predicate KeepsCare(w: World, w': World) {
    CarefulInv(w') && Evolves(w.db, w'.db) && w.access <= w'.access
  }

  lemma CarefulCommit(w: World, e: Event)
    requires Inv(w) && CarefulInv(w) && IsCareful(w, e) && e.Commit? && e.at == w.now
    ensures KeepsCare(w, Apply(w, e))
  {
    if e.handle in w.open {
      CommitEvolves(w, e.handle);
      CommitKeepsCareful(w, e.handle);
    }
  }

  lemma CarefulRead(w: World, e: Event)
    requires Inv(w) && CarefulInv(w) && IsRead(e)
    ensures KeepsCare(w, Apply(w, e))
  {
    if e.handle !in w.open {
      ReadRows(w, e);
      ReadKeepsCareful(w, e);
    }
  }

  lemma CarefulStep(w: World, e: Event)
    requires Inv(w) && CarefulInv(w) && IsCareful(w, e)
    ensures Inv(Step(w, e)) && w.now <= Step(w, e).now && KeepsCare(w, Step(w, e))
  {
    StepKeeps(w, e);
    if w.now <= e.at {
      var w0 := w.(now := e.at);
      TickKeeps(w, e.at);
      StepLater(w, e);
      if e.Commit? {
        SameCare(w, e);
        CarefulCommit(w0, e);
      } else if e.CreateUser? {
        if e.uid !in w.db.users { CreateKeepsCareful(w0, e.uid, e.user); }
      } else {
        CarefulRead(w0, e);
      }
    }
  }

  lemma StepLater(w: World, e: Event)
    ensures w.now <= Step(w, e).now
  {
  }

  lemma SameCare(w: World, e: Event)
    requires IsCareful(w, e) && e.Commit?
    ensures IsCareful(w.(now := e.at), Commit(e.handle, e.at))
  {
  }

  lemma {:induction false} CarefulRun(w: World, events: seq<Event>)
    requires Inv(w) && CarefulInv(w) && IsCarefulRun(w, events)
    ensures Inv(Run(w, events)) && w.now <= Run(w, events).now && KeepsCare(w, Run(w, events))
    decreases |events|
  {
    if events == [] {
      assert Run(w, events) == w;
    } else {
      var w1 := Step(w, events[0]);
      CarefulStep(w, events[0]);
      CarefulRun(w1, events[1..]);
      EvolvesTransitively(w.db, w1.db, Run(w1, events[1..]).db);
    }
  }

  lemma {:induction false} CarefulParts(w: World, events: seq<Event>, more: seq<Event>)
    requires IsCarefulRun(w, events + more)
    ensures IsCarefulRun(w, events) && IsCarefulRun(Run(w, events), more)
    decreases |events|
  {
    if events == [] {
      assert events + more == more;
    } else {
      assert (events + more)[1..] == events[1..] + more && (events + more)[0] == events[0];
      CarefulParts(Step(w, events[0]), events[1..], more);
    }
  }

  lemma BehindStaysDead(db: Db, db': Db, a: Access, now: nat, later: nat)
    requires Behind(db, a.sid, a.uid, a.generation, a.version) && Evolves(db, db')
    requires now <= later && !db.Accepts(a, now)
    ensures !db'.Accepts(a, later)
  {
    BehindStays(db, db', a.sid, a.uid, a.generation, a.version);
    assert SessionEvolves(db.sessions[a.sid], db'.sessions[a.sid]);
    assert UserEvolves(db.users[a.uid], db'.users[a.uid]);
    LaterSecondIsLater(now, later);
  }

  /**
    A dead access token stays dead, across login, refresh, revoke, logout, password change, disable,
    re-enable and delete, in every run in which no save of a generation or version completes over a row
    whose own has moved since the read.
  */
  lemma DeadTokenStaysDead(events: seq<Event>, more: seq<Event>, a: Access)
    requires IsCarefulRun(EMPTY, events + more)
    requires var w := Run(EMPTY, events); a in w.access && !w.db.Accepts(a, w.now)
    ensures var w' := Run(Run(EMPTY, events), more); !w'.db.Accepts(a, w'.now)
  {
    var w := Run(EMPTY, events);
    EmptyInv();
    CarefulParts(EMPTY, events, more);
    CarefulRun(EMPTY, events);
    CarefulRun(w, more);
    assert Behind(w.db, a.sid, a.uid, a.generation, a.version);
    BehindStaysDead(w.db, Run(w, more).db, a, w.now, Run(w, more).now);
  }

  // ---- Runs with stale saves, in which a dead token comes back ----

  /** Account 1 and at most its session 5 on the device "d", at time 0, with no login under way. */
  ghost predicate IsScene(w: World, user: User, sessions: map<Sid, Session>, open: map<Handle, Operation>) {
    && Reachable(w) && w.now == 0 && w.db == Db(map[1 := user], sessions) && w.open == open
    && w.knownSids == sessions.Keys && sessions.Keys <= {5} && (5 in sessions ==> IsRow(sessions[5]))
    && (forall h :: h in open ==> !open[h].LoggingIn?)
  }

  predicate IsRow(row: Session) { row.uid == 1 && row.device == "d" && row.token.sid == 5 && row.expiresAt > 0 }

  /** The access token handed out at time 0. */
  function TokenOf(user: User, row: Session): Access {
    Access(1, user.version, 5, row.generation, WholeSecond(ACCESS_LIFETIME))
  }

  const MEMBER := User(true, false, 0, "p", false)

  lemma Created() returns (w: World)
    ensures IsScene(w, MEMBER, map[], map[])
  {
    assert Reachable(EMPTY) by { assert EMPTY == Run(EMPTY, []); }
    w := Step(EMPTY, CreateUser(1, MEMBER, 0));
    ReachableStep(EMPTY, CreateUser(1, MEMBER, 0));
  }

  /** A native login of the device, with nothing in between. */
  lemma LogsIn(w: World, h: Handle, user: User, sessions: map<Sid, Session>, open: map<Handle, Operation>)
    returns (w': World, row: Session)
    requires IsScene(w, user, sessions, open) && h !in open && user.Active()
    ensures w' == Step(Step(w, LogInRead(h, 1, "d", 5, user.version, user.password, 0)), Commit(h, 0))
    ensures IsScene(w', user, map[5 := row], open) && !row.revoked
    ensures row.generation == if 5 in sessions then sessions[5].generation + 1 else 1
    ensures w'.access == w.access + {TokenOf(user, row)}
  {
    var e := LogInRead(h, 1, "d", 5, user.version, user.password, 0);
    var w1 := Step(w, e);
    w' := Step(w1, Commit(h, 0));
    ReachableStep(w, e);
    ReachableStep(w1, Commit(h, 0));
    assert w.(now := 0) == w && w1.(now := 0) == w1;
    row := SavedSession(w1.db, w1.open[h]);
    assert w'.open == open;
  }

  lemma RefreshOpens(w: World, h: Handle, user: User, row: Session, open: map<Handle, Operation>) returns (w': World)
    requires IsScene(w, user, map[5 := row], open) && h !in open && user.Active() && !row.revoked
    ensures IsScene(w', user, map[5 := row], open[h := Refreshing(row.token, row.generation, user.version, 0)])
    ensures w'.access == w.access
  {
    w' := Step(w, RefreshRead(h, row.token, 0));
    ReachableStep(w, RefreshRead(h, row.token, 0));
    assert w.(now := 0) == w;
  }

  lemma RefreshCommits(w: World, h: Handle, user: User, row: Session, open: map<Handle, Operation>)
    returns (w': World, row': Session)
    requires IsScene(w, user, map[5 := row], open) && !row.revoked
    requires h in open && open[h] == Refreshing(row.token, row.generation, user.version, 0)
    ensures IsScene(w', user, map[5 := row'], open - {h}) && !row'.revoked && row'.generation == row.generation + 1
    ensures w'.access == w.access + {TokenOf(user, row')}
  {
    w' := Step(w, Commit(h, 0));
    ReachableStep(w, Commit(h, 0));
    assert w.(now := 0) == w;
    row' := w'.db.sessions[5];
  }

  /** A refresh, with nothing in between. */
  lemma Refreshes(w: World, h: Handle, user: User, row: Session, open: map<Handle, Operation>)
    returns (w': World, row': Session)
    requires IsScene(w, user, map[5 := row], open) && h !in open && user.Active() && !row.revoked
    ensures IsScene(w', user, map[5 := row'], open) && !row'.revoked && row'.generation == row.generation + 1
    ensures w'.access == w.access + {TokenOf(user, row')}
  {
    var open' := open[h := Refreshing(row.token, row.generation, user.version, 0)];
    var w1 := RefreshOpens(w, h, user, row, open);
    w', row' := RefreshCommits(w1, h, user, row, open');
    assert open' - {h} == open;
  }

  /** A logout that has read its session. */
  lemma LogOutOpens(w: World, h: Handle, user: User, row: Session, open: map<Handle, Operation>) returns (w': World)
    requires IsScene(w, user, map[5 := row], open) && h !in open && user.Active() && !row.revoked
    requires TokenOf(user, row) in w.access
    ensures IsScene(w', user, map[5 := row], open[h := SavingSession(5, RevokeWrite(row))]) && w'.access == w.access
  {
    var e := LogOutRead(h, TokenOf(user, row), 0);
    w' := Step(w, e);
    ReachableStep(w, e);
    assert w.(now := 0) == w;
  }

  lemma SessionSaves(w: World, h: Handle, user: User, row: Session, open: map<Handle, Operation>, write: SessionWrite)
    returns (w': World)
    requires IsScene(w, user, map[5 := row], open) && h in open && open[h] == SavingSession(5, write)
    requires write.after == write.before.Revoke()
    ensures IsScene(w', user, map[5 := write.Onto(row)], open - {h}) && w'.access == w.access
  {
    w' := Step(w, Commit(h, 0));
    ReachableStep(w, Commit(h, 0));
    assert w.(now := 0) == w;
  }

  /** A handler that has read the account and is going to save it. */
  lemma AccountOpens(w: World, e: Event, user: User, sessions: map<Sid, Session>, open: map<Handle, Operation>,
                     change: UserWrite) returns (w': World)
    requires IsScene(w, user, sessions, open) && IsRead(e) && e.handle !in open && e.at == 0
    requires Read(w, e) == w.Opens(e.handle, SavingUser(1, change))
    ensures w' == Step(w, e)
    ensures IsScene(w', user, sessions, open[e.handle := SavingUser(1, change)]) && w'.access == w.access
  {
    w' := Step(w, e);
    ReachableStep(w, e);
    assert w.(now := 0) == w;
  }

  /** Its commit, of a kind that revokes no session. */
  lemma AccountSaves(w: World, h: Handle, user: User, sessions: map<Sid, Session>, open: map<Handle, Operation>,
                     change: UserWrite) returns (w': World)
    requires IsScene(w, user, sessions, open) && h in open && open[h] == SavingUser(1, change) && !change.revokesAll
    ensures w' == Step(w, Commit(h, 0))
    ensures IsScene(w', change.Onto(user), sessions, open - {h}) && w'.access == w.access
  {
    w' := Step(w, Commit(h, 0));
    ReachableStep(w, Commit(h, 0));
    assert w.(now := 0) == w;
  }

  /** Both halves of a handler that saves the account, with nothing in between. */
  lemma AccountChanges(w: World, e: Event, user: User, sessions: map<Sid, Session>, open: map<Handle, Operation>,
                       change: UserWrite) returns (w': World)
    requires IsScene(w, user, sessions, open) && IsRead(e) && e.handle !in open && e.at == 0 && !change.revokesAll
    requires Read(w, e) == w.Opens(e.handle, SavingUser(1, change))
    ensures w' == Step(Step(w, e), Commit(e.handle, 0))
    ensures IsScene(w', change.Onto(user), sessions, open) && w'.access == w.access
  {
    var open' := open[e.handle := SavingUser(1, change)];
    var w1 := AccountOpens(w, e, user, sessions, open, change);
    w' := AccountSaves(w1, e.handle, user, sessions, open', change);
    assert open' - {e.handle} == open;
  }

  lemma AcceptedInScene(w: World, user: User, row: Session, open: map<Handle, Operation>, a: Access)
    requires IsScene(w, user, map[5 := row], open)
    requires a.uid == 1 && a.sid == 5 && a.expires == WholeSecond(ACCESS_LIFETIME)
    ensures w.db.Accepts(a, w.now) <==>
              user.Active() && user.version == a.version && row.generation == a.generation && !row.revoked
  {
  }

  /**
    A logout reads its session in the first generation; two refreshes take it to the third and issue `a`.
    The logout saves the second generation, so `a` is rejected, and the next login of the device arrives at
    the third one again.
  */
  lemma GenerationComesBack() returns (w: World, later: World, a: Access)
    ensures Reachable(w) && a in w.access && !w.db.Accepts(a, w.now)
    ensures later == Step(Step(w, LogInRead(2, 1, "d", 5, 0, "p", 0)), Commit(2, 0)) && later.db.Accepts(a, later.now)
  {
    w := Created();
    var row, second, third, last;
    w, row := LogsIn(w, 2, MEMBER, map[], map[]);
    w := LogOutOpens(w, 1, MEMBER, row, map[]);
    var write := RevokeWrite(row);
    var open := map[1 := SavingSession(5, write)];
    w, second := Refreshes(w, 2, MEMBER, row, open);
    w, third := Refreshes(w, 2, MEMBER, second, open);
    a := TokenOf(MEMBER, third);
    w := SessionSaves(w, 1, MEMBER, third, open, write);
    assert open - {1} == map[];
    later, last := LogsIn(w, 2, MEMBER, map[5 := write.Onto(third)], map[]);
    AcceptedInScene(w, MEMBER, write.Onto(third), map[], a);
    AcceptedInScene(later, MEMBER, last, map[], a);
  }

  /** A web logout that has read the account at version 0. */
  const STALE := SavingUser(1, WebLogoutWrite(MEMBER))

  /** While it is open another one takes the account to version 1, and a native login issues a token. */
  lemma IssuedMeanwhile() returns (w: World, row: Session)
    ensures IsScene(w, MEMBER.(version := 1), map[5 := row], map[1 := STALE]) && !row.revoked
    ensures TokenOf(MEMBER.(version := 1), row) in w.access
  {
    w := Created();
    w := AccountOpens(w, WebLogoutRead(1, 1, 0), MEMBER, map[], map[], WebLogoutWrite(MEMBER));
    w := AccountChanges(w, WebLogoutRead(2, 1, 0), MEMBER, map[], map[1 := STALE], WebLogoutWrite(MEMBER));
    w, row := LogsIn(w, 2, MEMBER.(version := 1), map[], map[1 := STALE]);
  }

  /**
    A web logout reads the account at version 0, another one takes it to 1, and a native login issues `a`.
    The account is disabled, which makes it version 2. The first logout then saves version 1, and once the
    account is enabled again `a` is accepted.
  */
  lemma VersionComesBack() returns (w: World, later: World, a: Access)
    ensures Reachable(w) && a in w.access && !w.db.Accepts(a, w.now)
    ensures later == Step(Step(Step(w, Commit(1, 0)), EnableRead(2, 1, true, 0)), Commit(2, 0))
    ensures later.db.Accepts(a, later.now)
  {
    var user := MEMBER.(version := 1);
    var off := user.(enabled := false, version := 2);
    var w1, row := IssuedMeanwhile();
    a := TokenOf(user, row);
    w := Disabled(w1, user, row, map[1 := STALE]);
    AcceptedInScene(w, off, row, map[1 := STALE], a);
    later := Reenabled(w, off, row);
    AcceptedInScene(later, user, row, map[], a);
  }

  lemma Disabled(w: World, user: User, row: Session, stale: map<Handle, Operation>) returns (w': World)
    requires IsScene(w, user, map[5 := row], stale) && 2 !in stale && !user.isAdmin
    ensures IsScene(w', user.(enabled := false, version := user.version + 1), map[5 := row], stale)
    ensures w'.access == w.access
  {
    w' := AccountChanges(w, DisableRead(2, 1, 0), user, map[5 := row], stale, DisableWrite(user));
  }

  lemma Reenabled(w: World, user: User, row: Session) returns (later: World)
    requires IsScene(w, user, map[5 := row], map[1 := STALE]) && !user.enabled && !user.deleted && !user.isAdmin
    ensures later == Step(Step(Step(w, Commit(1, 0)), EnableRead(2, 1, true, 0)), Commit(2, 0))
    ensures IsScene(later, user.(enabled := true, version := 1), map[5 := row], map[]) && later.access == w.access
  {
    assert map[1 := STALE] - {1} == map[];
    var off := user.(version := 1);
    var w1 := AccountSaves(w, 1, user, map[5 := row], map[1 := STALE], WebLogoutWrite(MEMBER));
    later := AccountChanges(w1, EnableRead(2, 1, true, 0), off, map[5 := row], map[], EnableWrite(off, true));
  }
}
