/**
  Native sessions: password login, access tokens bound to (account version, device session,
  generation), rotating refresh tokens redeemed by a conditional update, and revocation on replay.

  Every handler that writes a row it has read is two steps, its read and its commit. A refresh commits by
  a conditional update. All others save: they write the columns that they set to something else than
  they had read, over whatever the row holds by then. Revoking all sessions of a user increments in the
  database itself. A login holds a lock on the user's row from its read to its commit.

  Hashing is injective, so a stored hash is modelled by the token it was computed from. Fresh secrets
  are drawn from a counter.
*/
module NativeSessions {
  import opened Common

  type Uid = nat
  type Sid = nat
  type Handle = nat  // a handler between its read and its commit

  const ACCESS_LIFETIME: nat := 900 * 1_000_000
  const SESSION_LIFETIME: nat := 30 * 86_400 * 1_000_000

  /** `password` is the stored hash, which a login verifies against and finds unchanged when it reads. */
  datatype User = User(enabled: bool, deleted: bool, version: nat, password: string, isAdmin: bool) {
    predicate Active() { enabled && !deleted }
  }

  datatype Refresh = Refresh(sid: Sid, secret: nat)
  datatype Access = Access(uid: Uid, version: nat, sid: Sid, generation: nat, expires: nat)

  datatype Session = Session(
    uid: Uid, device: string, token: Refresh, generation: nat, expiresAt: nat, revoked: bool)
  {
    /** Every path that revokes a session also moves its generation on. */
    function Revoke(): Session { if revoked then this else this.(revoked := true, generation := generation + 1) }
  }

  /** A session as a handler read it, and as the handler wants it. */
  datatype SessionWrite = SessionWrite(before: Session, after: Session) {
    function Onto(row: Session): Session {
      row.(token := if after.token != before.token then after.token else row.token,
           generation := if after.generation != before.generation then after.generation else row.generation,
           expiresAt := if after.expiresAt != before.expiresAt then after.expiresAt else row.expiresAt,
           revoked := if after.revoked != before.revoked then after.revoked else row.revoked)
    }
  }

  /** The same of an account; `revokesAll` says whether all its sessions are revoked in the same transaction. */
  datatype UserWrite = UserWrite(before: User, after: User, revokesAll: bool) {
    function Onto(row: User): User {
      row.(enabled := if after.enabled != before.enabled then after.enabled else row.enabled,
           deleted := if after.deleted != before.deleted then after.deleted else row.deleted,
           version := if after.version != before.version then after.version else row.version,
           password := if after.password != before.password then after.password else row.password)
    }
    predicate SetsVersion() { after.version != before.version }
  }

  datatype Db = Db(users: map<Uid, User>, sessions: map<Sid, Session>) {

    /** `native_access_identity`. */
    predicate Accepts(a: Access, now: nat) {
      AcceptsAccount(a) && AcceptsSession(a, now) && a.expires > WholeSecond(now)
    }

    predicate AcceptsAccount(a: Access) {
      a.uid in users && users[a.uid].Active() && users[a.uid].version == a.version
    }

    predicate AcceptsSession(a: Access, now: nat) {
      && a.sid in sessions && sessions[a.sid].uid == a.uid
      && sessions[a.sid].generation == a.generation && !sessions[a.sid].revoked && sessions[a.sid].expiresAt > now
    }

    /** The members that the administrative user routes act on. */
    predicate IsMember(uid: Uid) { uid in users && !users[uid].isAdmin && !users[uid].deleted }

    /** `revoke_device_sessions`. */
    function RevokeAll(uid: Uid): Db {
      this.(sessions := map s | s in sessions :: if sessions[s].uid == uid then sessions[s].Revoke() else sessions[s])
    }

    function WithUser(uid: Uid, user: User): Db { this.(users := users[uid := user]) }
    function WithSession(sid: Sid, session: Session): Db { this.(sessions := sessions[sid := session]) }

    /** `sid` is what looking up the session of (uid, device) yields, or a new id if there is none. */
    predicate Finds(uid: Uid, device: string, sid: Sid) {
      if sid in sessions then sessions[sid].uid == uid && sessions[sid].device == device
      else forall s :: s in sessions ==> sessions[s].uid != uid || sessions[s].device != device
    }

    predicate MayLogin(uid: Uid, version: nat, password: string) {
      uid in users && users[uid].Active() && users[uid].version == version && users[uid].password == password
    }

    /** A token that is not the current one is a replay. */
    predicate Replays(token: Refresh) { token.sid in sessions && sessions[token.sid].token != token }

    predicate MayRefresh(token: Refresh, now: nat) {
      && token.sid in sessions
      && var item := sessions[token.sid];
      && item.token == token && !item.revoked && item.expiresAt > now
      && item.uid in users && users[item.uid].Active()
    }

    /** The guard of the conditional update. */
    predicate Rotates(token: Refresh, generation: nat) {
      && token.sid in sessions
      && sessions[token.sid].token == token && sessions[token.sid].generation == generation
      && !sessions[token.sid].revoked
    }

    function Rotate(token: Refresh, readAt: nat, secret: nat): Db
      requires token.sid in sessions
    {
      WithSession(token.sid, sessions[token.sid].(
          token := Refresh(token.sid, secret), generation := sessions[token.sid].generation + 1,
          expiresAt := readAt + SESSION_LIFETIME))
    }

    /** No access token of the user is accepted in this state, and no refresh of theirs begins or succeeds. */
    ghost predicate IsSignedOut(uid: Uid) {
      && (forall a: Access, now: nat :: a.uid == uid ==> !Accepts(a, now))
      && (forall r: Refresh, now: nat :: r.sid in sessions && sessions[r.sid].uid == uid ==> !MayRefresh(r, now))
      && (forall r: Refresh, g: nat :: r.sid in sessions && sessions[r.sid].uid == uid ==> !Rotates(r, g))
    }
  }

  // ---- What the handlers set ----

  function LogInWrite(row: Session, sid: Sid, secret: nat, now: nat): SessionWrite {
    SessionWrite(row, row.(token := Refresh(sid, secret), generation := row.generation + 1,
                           expiresAt := now + SESSION_LIFETIME, revoked := false))
  }

  function NewSession(uid: Uid, device: string, sid: Sid, secret: nat, now: nat): Session {
    Session(uid, device, Refresh(sid, secret), 1, now + SESSION_LIFETIME, false)
  }

  function RevokeWrite(row: Session): SessionWrite { SessionWrite(row, row.Revoke()) }

  function WebLogoutWrite(user: User): UserWrite { UserWrite(user, user.(version := user.version + 1), false) }

  function PasswordWrite(user: User, password: string): UserWrite {
    UserWrite(user, user.(password := password, version := user.version + 1), true)
  }

  function EnableWrite(user: User, enabled: bool): UserWrite {
    if user.enabled && !enabled then UserWrite(user, user.(enabled := false, version := user.version + 1), true)
    else UserWrite(user, user.(enabled := enabled), false)
  }

  /** The older disable route moves the version but revokes no device session. */
  function DisableWrite(user: User): UserWrite {
    UserWrite(user, user.(enabled := false, version := user.version + 1), false)
  }

  function DeleteWrite(user: User): UserWrite {
    UserWrite(user, user.(enabled := false, deleted := true, password := "!deleted", version := user.version + 1), true)
  }

  // ---- Runs ----

  datatype Operation =
    | LoggingIn(uid: Uid, version: nat, sid: Sid, isNew: bool, write: SessionWrite)
    | Refreshing(token: Refresh, generation: nat, version: nat, readAt: nat)
    | SavingSession(sid: Sid, write: SessionWrite)
    | SavingUser(uid: Uid, change: UserWrite)

  /** Events that end in `Read` open a handle; `Commit` completes it. */
  datatype Event =
    | CreateUser(uid: Uid, user: User, at: nat)
    | LogInRead(handle: Handle, uid: Uid, device: string, sid: Sid, version: nat, password: string, at: nat)
    | RefreshRead(handle: Handle, token: Refresh, at: nat)
    | RevokeRead(handle: Handle, access: Access, sid: Sid, at: nat)
    | LogOutRead(handle: Handle, access: Access, at: nat)
    | WebLogoutRead(handle: Handle, uid: Uid, at: nat)
    | PasswordRead(handle: Handle, uid: Uid, password: string, at: nat)
    | EnableRead(handle: Handle, uid: Uid, enabled: bool, at: nat)
    | DisableRead(handle: Handle, uid: Uid, at: nat)
    | DeleteRead(handle: Handle, uid: Uid, at: nat)
    | Commit(handle: Handle, at: nat)

  /** The tables together with the open handlers and what has been handed out so far. */
  datatype World = World(
    now: nat,
    db: Db,
    open: map<Handle, Operation>,
    access: set<Access>,
    redeemed: multiset<Refresh>,
    knownSids: set<Sid>,  // identifiers are drawn at random and never used again
    nextSecret: nat)
  {
    function Opens(h: Handle, op: Operation): World { this.(open := open[h := op]) }
  }

  const EMPTY := World(0, Db(map[], map[]), map[], {}, multiset{}, {}, 0)

  /** A login that is not yet committed holds the user's row. */
  predicate IsLocked(w: World, uid: Uid) { exists h :: h in w.open && w.open[h].LoggingIn? && w.open[h].uid == uid }

  /** One event at a time; an event from the past is ignored, so times never decrease. */
  function Step(w: World, e: Event): World {
    if e.at < w.now then w else Apply(w.(now := e.at), e)
  }

  function Apply(w: World, e: Event): World {
    match e
    case CreateUser(uid, user, _) =>
      if uid in w.db.users || !user.Active() then w else w.(db := w.db.WithUser(uid, user))
    case Commit(h, _) => if h in w.open then CommitOperation(w, h) else w
    case _ => if e.handle in w.open then w else Read(w, e)
  }

  /** The handlers' first halves; the handle is free. */
  function Read(w: World, e: Event): World
    requires !e.CreateUser? && !e.Commit?
  {
    var h := e.handle;
    match e
    case LogInRead(_, uid, device, sid, version, password, at) =>
      if w.db.MayLogin(uid, version, password) && w.db.Finds(uid, device, sid) && !IsLocked(w, uid)
      then ReadLogIn(w, h, uid, device, sid, at) else w
    case RefreshRead(_, token, at) => ReadRefresh(w, h, token, at)
    case RevokeRead(_, access, sid, at) =>
      if access in w.access && w.db.Accepts(access, at) && sid in w.db.sessions && w.db.sessions[sid].uid == access.uid
      then ReadRevoke(w, h, sid) else w
    case LogOutRead(_, access, at) =>
      if access in w.access && w.db.Accepts(access, at) then ReadRevoke(w, h, access.sid) else w
    case _ => ReadAccount(w, e)
  }

  function ReadLogIn(w: World, h: Handle, uid: Uid, device: string, sid: Sid, now: nat): World
    requires uid in w.db.users
  {
    var version := w.db.users[uid].version;
    if sid in w.db.sessions then
      var write := LogInWrite(w.db.sessions[sid], sid, w.nextSecret, now);
      w.(open := w.open[h := LoggingIn(uid, version, sid, false, write)], nextSecret := w.nextSecret + 1)
    else if sid in w.knownSids then w
    else
      var row := NewSession(uid, device, sid, w.nextSecret, now);
      w.(open := w.open[h := LoggingIn(uid, version, sid, true, SessionWrite(row, row))],
         knownSids := w.knownSids + {sid}, nextSecret := w.nextSecret + 1)
  }

  function ReadRefresh(w: World, h: Handle, token: Refresh, now: nat): World {
    if w.db.Replays(token) then ReadRevoke(w, h, token.sid)
    else if w.db.MayRefresh(token, now) then
      var item := w.db.sessions[token.sid];
      w.Opens(h, Refreshing(token, item.generation, w.db.users[item.uid].version, now))
    else w
  }

  function ReadRevoke(w: World, h: Handle, sid: Sid): World {
    if sid in w.db.sessions && !w.db.sessions[sid].revoked
    then w.Opens(h, SavingSession(sid, RevokeWrite(w.db.sessions[sid]))) else w
  }

  function ReadAccount(w: World, e: Event): World
    requires e.WebLogoutRead? || e.PasswordRead? || e.EnableRead? || e.DisableRead? || e.DeleteRead?
  {
    if e.uid !in w.db.users then w
    else
      var user := w.db.users[e.uid];
      match e
      case WebLogoutRead(h, uid, _) => if user.Active() then w.Opens(h, SavingUser(uid, WebLogoutWrite(user))) else w
      case PasswordRead(h, uid, password, _) =>
        if w.db.IsMember(uid) then w.Opens(h, SavingUser(uid, PasswordWrite(user, password))) else w
      case EnableRead(h, uid, enabled, _) =>
        if w.db.IsMember(uid) then w.Opens(h, SavingUser(uid, EnableWrite(user, enabled))) else w
      case DisableRead(h, uid, _) => if !user.isAdmin then w.Opens(h, SavingUser(uid, DisableWrite(user))) else w
      case DeleteRead(h, uid, _) => if w.db.IsMember(uid) then w.Opens(h, SavingUser(uid, DeleteWrite(user))) else w
  }

  // ---- The commits ----

  function CommitOperation(w: World, h: Handle): World
    requires h in w.open
  {
    match w.open[h]
    case LoggingIn(uid, version, sid, isNew, write) => CommitLogIn(w, h, w.open[h])
    case Refreshing(token, generation, version, readAt) =>
      if w.db.Rotates(token, generation) then CommitRefresh(w, h, w.open[h])
      else ReadRevoke(w.(open := w.open - {h}), h, token.sid)  // read again, to be revoked
    case SavingSession(sid, write) =>
      var done := w.(open := w.open - {h});
      if sid in w.db.sessions then done.(db := w.db.WithSession(sid, write.Onto(w.db.sessions[sid]))) else done
    case SavingUser(uid, change) =>
      if IsLocked(w, uid) then w  // waits for the login
      else if uid in w.db.users then w.(open := w.open - {h}, db := SaveUser(w.db, uid, change))
      else w.(open := w.open - {h})
  }

  function SavedSession(db: Db, op: Operation): Session
    requires op.LoggingIn?
  {
    if !op.isNew && op.sid in db.sessions then op.write.Onto(db.sessions[op.sid]) else op.write.after
  }

  function CommitLogIn(w: World, h: Handle, op: Operation): World
    requires op.LoggingIn?
  {
    var row := SavedSession(w.db, op);
    w.(open := w.open - {h}, db := w.db.WithSession(op.sid, row),
       access := w.access + {Access(op.uid, op.version, op.sid, row.generation, WholeSecond(w.now + ACCESS_LIFETIME))})
  }

  function CommitRefresh(w: World, h: Handle, op: Operation): World
    requires op.Refreshing? && w.db.Rotates(op.token, op.generation)
  {
    var db := w.db.Rotate(op.token, op.readAt, w.nextSecret);
    var sid := op.token.sid;
    w.(open := w.open - {h}, db := db, redeemed := w.redeemed + multiset{op.token}, nextSecret := w.nextSecret + 1,
       access := w.access + {Access(db.sessions[sid].uid, op.version, sid, op.generation + 1,
                                    WholeSecond(w.now + ACCESS_LIFETIME))})
  }

  function SaveUser(db: Db, uid: Uid, change: UserWrite): Db
    requires uid in db.users
  {
    var saved := db.WithUser(uid, change.Onto(db.users[uid]));
    if change.revokesAll then saved.RevokeAll(uid) else saved
  }

  function Run(w: World, events: seq<Event>): World
    decreases |events|
  {
    if events == [] then w else Run(Step(w, events[0]), events[1..])
  }
}
