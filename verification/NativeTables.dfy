/**
  The handlers of native sessions, on the two tables that they update in place. Beside the rows the class
  keeps the world they belong to, which some run of events has led to.
*/
module NativeTables {
  import opened Common
  import opened NativeSessions
  import opened NativeSessionsProofs

  class Tables {
    var users: map<Uid, User>
    var sessions: map<Sid, Session>
    ghost var world: World

    ghost function View(): Db
      reads this
    {
      Db(users, sessions)
    }

    ghost predicate Valid()
      reads this
    {
      View() == world.db && Reachable(world)
    }

    constructor ()
      ensures Valid() && world == EMPTY
    {
      users, sessions, world := map[], map[], EMPTY;
      new;
      assert EMPTY == Run(EMPTY, []);
    }

    /** One statement: the user is signed out everywhere, nobody else is, and doing it again changes nothing. */
    method RevokeDeviceSessions(uid: Uid)
      modifies this`sessions
      ensures View() == old(View()).RevokeAll(uid)
      ensures View().IsSignedOut(uid) && View().RevokeAll(uid) == View()
      ensures SameFor(old(View()), View(), uid)
    {
      sessions := map s | s in sessions ::
        if sessions[s].uid == uid && !sessions[s].revoked
        then sessions[s].(revoked := true, generation := sessions[s].generation + 1)
        else sessions[s];
      RevokeAllSignsOut(old(View()), uid);
    }

    /**
      The first half of a login, with the user's row locked: it goes on exactly for an active account with
      the password and version that were verified, and with the session of the device if there is one.
    */
    method ReadLogin(ghost h: Handle, uid: Uid, device: string, version: nat, password: string, newId: Sid,
                     secret: nat, now: nat) returns (op: Option<Operation>, sid: Sid)
      requires Valid() && h !in world.open && world.now <= now && !IsLocked(world, uid)
      requires newId !in world.knownSids && secret == world.nextSecret
      modifies this`world
      ensures Valid() && world == Step(old(world), LogInRead(h, uid, device, sid, version, password, now))
      ensures op.Some? <==> View().MayLogin(uid, version, password)
      ensures op.Some? ==> op.value.LoggingIn? && op.value.sid == sid && View().Finds(uid, device, sid)
      ensures world.open == if op.Some? then old(world).open[h := op.value] else old(world).open
    {
      op, sid := None, newId;
      StoredIsKnown(world, newId);
      if exists s :: s in sessions && sessions[s].uid == uid && sessions[s].device == device {
        sid :| sid in sessions && sessions[sid].uid == uid && sessions[sid].device == device;
      }
      if uid in users && users[uid].enabled && !users[uid].deleted
         && users[uid].password == password && users[uid].version == version {
        var raw := Refresh(sid, secret);
        if sid in sessions {
          var item := sessions[sid];
          var renewed := item.(token := raw, generation := item.generation + 1,
                               expiresAt := now + SESSION_LIFETIME, revoked := false);
          op := Some(LoggingIn(uid, version, sid, false, SessionWrite(item, renewed)));
        } else {
          var item := Session(uid, device, raw, 1, now + SESSION_LIFETIME, false);
          op := Some(LoggingIn(uid, version, sid, true, SessionWrite(item, item)));
        }
      }
      LogInReadStep(world, h, uid, device, sid, version, password, now);
      world := Step(world, LogInRead(h, uid, device, sid, version, password, now));
    }

    /**
      The second half. The access token handed out is accepted at once unless the session has run out or
      was revoked since the read; of the session's refresh tokens only the new one works from now on.
    */
    method CommitLogin(ghost h: Handle, op: Operation, now: nat) returns (access: Access, raw: Refresh)
      requires Valid() && h in world.open && world.open[h] == op && op.LoggingIn? && world.now <= now
      modifies this
      ensures Valid() && world == Step(old(world), Commit(h, now)) && access in world.access
      ensures op.sid in sessions && sessions[op.sid].token == raw
      ensures View().Accepts(access, now) <==> !sessions[op.sid].revoked && now < sessions[op.sid].expiresAt
      ensures sessions[op.sid].revoked <==>
                op.sid in old(sessions) && old(sessions)[op.sid].revoked && !op.write.before.revoked
      ensures forall r: Refresh, g :: r.sid == op.sid && r != raw ==> !View().Rotates(r, g)
    {
      LogInCommitStep(world, h, now);
      var row := op.write.after;
      if !op.isNew && op.sid in sessions { row := op.write.Onto(sessions[op.sid]); }
      sessions := sessions[op.sid := row];
      raw := row.token;
      access := Access(op.uid, op.version, op.sid, row.generation, WholeSecond(now + ACCESS_LIFETIME));
      world := Step(world, Commit(h, now));
      LaterSecond(now, ACCESS_LIFETIME);
    }

    /**
      The first half of a refresh. It goes on to the conditional update exactly for the current token of a
      live session. Whoever presents a redeemed token finds the session revoked or goes on to revoke it.
    */
    method ReadRefreshToken(ghost h: Handle, token: Refresh, now: nat) returns (op: Option<Operation>)
      requires Valid() && h !in world.open && world.now <= now
      modifies this`world
      ensures Valid() && world == Step(old(world), RefreshRead(h, token, now))
      ensures world.open == if op.Some? then old(world).open[h := op.value] else old(world).open
      ensures op.Some? && op.value.Refreshing? <==> View().MayRefresh(token, now)
      ensures token in world.redeemed ==>
                token.sid in sessions
                && (sessions[token.sid].revoked || (op.Some? && Revokes(op.value, token.sid)))
    {
      op := None;
      RefreshReadStep(world, h, token, now);
      if token.sid in sessions {
        var item := sessions[token.sid];
        if item.token != token {
          op := ReadForRevocation(token.sid);
        } else if !item.revoked && item.expiresAt > now && item.uid in users
                  && users[item.uid].enabled && !users[item.uid].deleted {
          op := Some(Refreshing(token, item.generation, users[item.uid].version, now));
        }
      }
      world := Step(world, RefreshRead(h, token, now));
    }

    /** What a logout, the revocation of a device or a replayed token is going to save. */
    method ReadForRevocation(sid: Sid) returns (op: Option<Operation>)
      ensures op.Some? <==> sid in sessions && !sessions[sid].revoked
      ensures op.Some? ==> op.value == SavingSession(sid, RevokeWrite(sessions[sid])) && Revokes(op.value, sid)
    {
      op := None;
      if sid in sessions && !sessions[sid].revoked {
        var item := sessions[sid];
        op := Some(SavingSession(sid, SessionWrite(item, item.(revoked := true, generation := item.generation + 1))));
      }
    }

    /**
      The second half: the token is redeemed exactly if nothing changed since the read, and never a second
      time. A request that comes too late is issued nothing; it reads the session again, which is revoked or
      which it goes on to revoke.
    */
    method CommitRefreshToken(ghost h: Handle, op: Operation, secret: nat, now: nat)
      returns (issued: Option<(Access, Refresh)>, again: Option<Operation>)
      requires Valid() && h in world.open && world.open[h] == op && op.Refreshing? && world.now <= now
      requires secret == world.nextSecret
      modifies this
      ensures Valid() && world == Step(old(world), Commit(h, now))
      ensures issued.Some? <==> old(View()).Rotates(op.token, op.generation)
      ensures op.token in old(world).redeemed ==> issued.None?
      ensures issued.Some? ==>
                && world.redeemed[op.token] == 1 && (forall g :: !View().Rotates(op.token, g))
                && issued.value.0 in world.access && issued.value.1 == sessions[op.token.sid].token
      ensures issued.None? ==>
                && View() == old(View()) && world.access == old(world).access && op.token.sid in sessions
                && (sessions[op.token.sid].revoked || (again.Some? && Revokes(again.value, op.token.sid)))
      ensures again.Some? ==> h in world.open && world.open[h] == again.value
    {
      issued, again := None, None;
      RefreshCommitStep(world, h, now);
      var sid := op.token.sid;
      if sid in sessions && sessions[sid].token == op.token && sessions[sid].generation == op.generation
         && !sessions[sid].revoked {
        var raw := Refresh(sid, secret);
        sessions := sessions[sid := sessions[sid].(
          token := raw, generation := op.generation + 1, expiresAt := op.readAt + SESSION_LIFETIME)];
        var expires := WholeSecond(now + ACCESS_LIFETIME);
        issued := Some((Access(sessions[sid].uid, op.version, sid, op.generation + 1, expires), raw));
      } else {
        again := ReadForRevocation(sid);
      }
      world := Step(world, Commit(h, now));
    }

    /** A revocation, a logout or a replay completes: the session is revoked, and no other one is touched. */
    method SaveSession(ghost h: Handle, op: Operation, now: nat)
      requires Valid() && h in world.open && world.open[h] == op && op.SavingSession? && world.now <= now
      modifies this
      ensures Valid() && world == Step(old(world), Commit(h, now)) && users == old(users)
      ensures op.sid in sessions && sessions[op.sid].revoked && sessions.Keys == old(sessions).Keys
      ensures sessions[op.sid].token == old(sessions)[op.sid].token
      ensures forall s :: s in sessions && s != op.sid ==> sessions[s] == old(sessions)[s]
    {
      SessionSaveStep(world, h, now);
      sessions := sessions[op.sid := op.write.Onto(sessions[op.sid])];
      world := Step(world, Commit(h, now));
    }

    /**
      An account is saved once no login holds its row. A password change, a disabling and a deletion sign
      the user out. Whatever moves the version ends the logins that had verified the version it read. After
      a deletion nobody ever logs in. Nobody else is affected.
    */
    method SaveAccount(ghost h: Handle, op: Operation, now: nat)
      requires Valid() && h in world.open && world.open[h] == op && op.SavingUser? && world.now <= now
      requires !IsLocked(world, op.uid)
      modifies this
      ensures Valid() && world == Step(old(world), Commit(h, now))
      ensures op.change.revokesAll ==> View().IsSignedOut(op.uid)
      ensures op.change.SetsVersion() ==> forall p :: !View().MayLogin(op.uid, op.change.before.version, p)
      ensures op.change.after.deleted && !op.change.before.deleted ==>
                op.uid in users && users[op.uid].deleted && !View().IsMember(op.uid)
                && forall v, p :: !View().MayLogin(op.uid, v, p)
      ensures SameFor(old(View()), View(), op.uid)
    {
      AccountSaveStep(world, h, now);
      users := users[op.uid := op.change.Onto(users[op.uid])];
      if op.change.revokesAll { RevokeDeviceSessions(op.uid); }
      world := Step(world, Commit(h, now));
    }
  }

  lemma RevokeAllSignsOut(db: Db, uid: Uid)
    ensures db.RevokeAll(uid).IsSignedOut(uid) && db.RevokeAll(uid).RevokeAll(uid) == db.RevokeAll(uid)
    ensures SameFor(db, db.RevokeAll(uid), uid)
  {
    var db' := db.RevokeAll(uid);
    forall s | s in db'.sessions && db'.sessions[s].uid == uid ensures db'.sessions[s].revoked {}
    assert db'.RevokeAll(uid).sessions == db'.sessions;
  }

  lemma LaterSecond(now: nat, delay: nat)
    requires delay >= SECOND
    ensures WholeSecond(now + delay) > WholeSecond(now)
  {
  }

  // ---- What the halves make of a reachable world ----

  lemma StoredIsKnown(w: World, sid: Sid)
    requires Reachable(w) && sid !in w.knownSids
    ensures sid !in w.db.sessions
  {
    ReachableInv(w);
  }

  lemma LogInReadStep(w: World, h: Handle, uid: Uid, device: string, sid: Sid, version: nat, password: string, now: nat)
    requires Reachable(w) && h !in w.open && w.now <= now && !IsLocked(w, uid) && w.db.Finds(uid, device, sid)
    requires sid in w.db.sessions || sid !in w.knownSids
    ensures var w' := Step(w, LogInRead(h, uid, device, sid, version, password, now));
            && Reachable(w') && w'.db == w.db
            && w'.open == if !w.db.MayLogin(uid, version, password) then w.open
                          else ReadLogIn(w, h, uid, device, sid, now).open
  {
    ReachableStep(w, LogInRead(h, uid, device, sid, version, password, now));
    ReadRows(w.(now := now), LogInRead(h, uid, device, sid, version, password, now));
    SameLock(w, now, uid);
  }

  lemma LogInCommitStep(w: World, h: Handle, now: nat)
    requires Reachable(w) && h in w.open && w.open[h].LoggingIn? && w.now <= now
    ensures var w', op := Step(w, Commit(h, now)), w.open[h];
            var row := SavedSession(w.db, op);
            && Reachable(w') && w'.db == w.db.WithSession(op.sid, row) && row.token == op.write.after.token
            && Access(op.uid, op.version, op.sid, row.generation, WholeSecond(now + ACCESS_LIFETIME)) in w'.access
            && op.uid in w.db.users && w.db.users[op.uid].Active() && w.db.users[op.uid].version == op.version
            && row.uid == op.uid
            && (row.revoked <==> op.sid in w.db.sessions && w.db.sessions[op.sid].revoked && !op.write.before.revoked)
  {
    ReachableStep(w, Commit(h, now));
    ReachableInv(w);
    assert IsLogIn(w, h) && OpFits(w, w.open[h]);
    LogInRow(w, h);
  }

  lemma RefreshReadStep(w: World, h: Handle, token: Refresh, now: nat)
    requires Reachable(w) && h !in w.open && w.now <= now
    ensures var w' := Step(w, RefreshRead(h, token, now));
            && Reachable(w') && w'.db == w.db && w'.redeemed == w.redeemed
            && w'.open == ReadRefresh(w, h, token, now).open
            && (token in w.redeemed ==> w.db.Replays(token))
  {
    ReachableStep(w, RefreshRead(h, token, now));
    ReachableInv(w);
    if token in w.redeemed { assert IsSpent(w, token); }
  }

  /** An open refresh has its session, and if it wins, its token is spent for good. */
  lemma RefreshFact(w: World, h: Handle, now: nat)
    requires Reachable(w) && h in w.open && w.open[h].Refreshing? && w.now <= now
    ensures var w', op := Step(w, Commit(h, now)), w.open[h];
            && Reachable(w') && op.token.sid in w.db.sessions
            && (op.token in w.redeemed ==> !w.db.Rotates(op.token, op.generation))
            && (op.token in w'.redeemed ==> IsSpent(w', op.token))
  {
    ReachableStep(w, Commit(h, now));
    ReachableInv(w);
    ReachableInv(Step(w, Commit(h, now)));
    assert OpFits(w, w.open[h]);
    if w.open[h].token in w.redeemed { RedeemedHasLost(w, h); }
  }

  lemma RefreshCommitStep(w: World, h: Handle, now: nat)
    requires Reachable(w) && h in w.open && w.open[h].Refreshing? && w.now <= now
    ensures var w', op := Step(w, Commit(h, now)), w.open[h];
            && Reachable(w') && op.token.sid in w.db.sessions
            && (op.token in w.redeemed ==> !w.db.Rotates(op.token, op.generation))
            && if w.db.Rotates(op.token, op.generation)
               then && w'.db == w.db.Rotate(op.token, op.readAt, w.nextSecret) && IsSpent(w', op.token)
                    && Access(w.db.sessions[op.token.sid].uid, op.version, op.token.sid, op.generation + 1,
                              WholeSecond(now + ACCESS_LIFETIME)) in w'.access
               else && w'.db == w.db && w'.access == w.access
                    && w'.open == ReadRevoke(w.(open := w.open - {h}), h, op.token.sid).open
  {
    RefreshFact(w, h, now);
  }

  lemma SessionSaveStep(w: World, h: Handle, now: nat)
    requires Reachable(w) && h in w.open && w.open[h].SavingSession? && w.now <= now
    ensures var w', op := Step(w, Commit(h, now)), w.open[h];
            && Reachable(w') && op.sid in w.db.sessions && op.write.Onto(w.db.sessions[op.sid]).revoked
            && w'.db == w.db.WithSession(op.sid, op.write.Onto(w.db.sessions[op.sid]))
            && op.write.Onto(w.db.sessions[op.sid]).token == w.db.sessions[op.sid].token
  {
    ReachableStep(w, Commit(h, now));
    ReachableInv(w);
    assert OpFits(w, w.open[h]);
  }

  lemma AccountSaveStep(w: World, h: Handle, now: nat)
    requires Reachable(w) && h in w.open && w.open[h].SavingUser? && w.now <= now && !IsLocked(w, w.open[h].uid)
    ensures var w', op := Step(w, Commit(h, now)), w.open[h];
            && Reachable(w') && op.uid in w.db.users && ChangeFits(op.change)
            && w'.db == SaveUser(w.db, op.uid, op.change)
  {
    ReachableStep(w, Commit(h, now));
    ReachableInv(w);
    assert OpFits(w, w.open[h]);
    SameLock(w, now, w.open[h].uid);
  }
}
