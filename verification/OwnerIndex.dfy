// The unique index on the characters of open rows: exactly when it refuses a dispatch,
// in which order rows are written, and what that means for an honest edge.
module OwnerIndex {
  import opened Wrappers
  import opened Terminalwire
  import opened CoreSession
  import opened CoreDispatch
  import opened DispatchFacts
  import opened RowFacts
  import opened Protocol
  import opened Honest
  import opened Guarantees
  import opened Ownership

  // Another open row owns the character of `r` at the very end of its lease: too old to be
  // loaded, too young to be cleared.
  predicate Held(rows: map<nat, Row>, now: int, id: nat, r: Row) {
    r.character.Some? &&
    exists j :: j in rows && j != id && !rows[j].closed && rows[j].character == r.character && rows[j].lastSeen == now - LEASE
  }

  ghost predicate Lapses(rows: map<nat, Row>, now: int) {
    forall j :: j in rows && rows[j].character.Some? ==> rows[j].lastSeen >= now - LEASE
  }

  lemma SweepLapses(rows: map<nat, Row>, now: int)
    ensures Lapses(Sweep(rows, now), now)
  {
  }

  lemma SameOwner(users: map<nat, User>, mine: Credential, theirs: Credential)
    requires Active(users, mine) && theirs.user == mine.user && mine.version <= theirs.version
    requires theirs.version <= users[theirs.user].version
    ensures Active(users, theirs)
  {
  }

  lemma StartHolds<W>(g: Game<W>, rows: map<nat, Row>, env: Env, req: Request)
    requires OwnOk(g, rows, env.now, env.users)
    ensures var r := Start(rows, req); Playing(r.saved.closed, r.saved.conn) ==>
              r.saved.conn.credential.Some? && g.owner(r.saved.conn.character.value) == r.saved.conn.credential.value.user
  {
    if req.id in rows {
      assert Holds(g, env.users, rows[req.id]);
    }
  }

  // A live bystander in the game holds its claim unless it was revoked.
  lemma ClaimedBystander<W>(g: Game<W>, env: Env, world: W, rows: map<nat, Row>, sessions: map<nat, Session>, req: Request, j: nat, character: nat)
    requires Admitted(g, env, world, rows, sessions, req) && RowsOk(rows) && j in sessions && j != req.id && j in rows
    requires Playing(rows[j].closed, rows[j].saved.conn) && rows[j].saved.conn.character == Some(character)
    ensures j in Cut(env.users, sessions, req) || Taken(Opening(g, env, world, sessions, req).sessions, req.id, character)
  {
    hide Begin, Base, Shape, Cut;
    BystanderBegins(g, env, rows, sessions, req, world, j);
    assert RowOk(rows[j]);
  }

  // In the game at the end of the turn means holding the credential the session came with.
  lemma PlaysAsStored<W(!new)>(g: Game<W>, env: Env, world: W, rows: map<nat, Row>, sessions: map<nat, Session>, req: Request)
    requires Loaded(rows, sessions, req) && RowsOk(rows) && Owned(g)
    ensures var c0 := Start(rows, req).saved.conn;
            var f := Closing(g, env, world, sessions, req).lane.sessions[req.id];
            Playing(f.saved.closed, f.conn) ==>
              req.id in rows && !rows[req.id].closed && SignedIn(c0) && f.conn.credential == c0.credential
              && c0.credential.Some? && Active(env.users, c0.credential.value)
  {
    hide Opening, Turn, Taken, Active, Shape;
    StartOk(rows, req);
    OpeningConn(g, env, world, rows, sessions, req);
    ClosingTurned(g, env, rows, sessions, req, world);
    TurnConn(g, env, Opening(g, env, world, sessions, req), req, sessions[req.id].saved.closed);
  }

  // No live row owns the character the requester ends with: a live owner would hold the
  // claim unless revoked, and its credential is at least as new as the requester's.
  lemma NoLiveOwner<W(!new)>(g: Game<W>, env: Env, world: W, rows: map<nat, Row>, sessions: map<nat, Session>, req: Request, j: nat)
    requires Admitted(g, env, world, rows, sessions, req) && Owned(g) && OwnOk(g, rows, env.now, env.users)
    requires j in rows && j in sessions && j != req.id && !rows[j].closed && rows[j].character.Some?
    ensures StoredAt(g, env, world, rows, sessions, req, req.id).character != rows[j].character
  {
    hide Opening, Closing, Unique, Owns, Shape, Active, StoredAt, Taken, SignedIn, Cut, Current;
    OwnRowsOk(g, rows, env.now, env.users);
    RequesterStored(g, env, world, rows, sessions, req);
    assert Holds(g, env.users, rows[j]);
    var f := Closing(g, env, world, sessions, req).lane.sessions[req.id];
    if Playing(f.saved.closed, f.conn) && f.conn.character == rows[j].character {
      StartHolds(g, rows, env, req);
      ClosingClaim(g, env, world, rows, sessions, req);
      PlaysAsStored(g, env, world, rows, sessions, req);
      ClaimedBystander(g, env, world, rows, sessions, req, j, rows[j].character.value);
      LoadedCurrent(g, env, world, rows, sessions, req, j);
      NewerOwner(g, rows, env, req, j);
      StillActive(env.users, rows, sessions, req, j);
    }
  }

  lemma NewerOwner<W>(g: Game<W>, rows: map<nat, Row>, env: Env, req: Request, j: nat)
    requires OwnOk(g, rows, env.now, env.users) && j in rows && req.id in rows && Current(rows[j], env.now)
    requires Playing(rows[j].closed, rows[j].saved.conn) && Signed(rows[req.id])
    requires var c := rows[req.id].saved.conn.credential;
             c.Some? && Active(env.users, c.value) && g.owner(rows[j].saved.conn.character.value) == c.value.user
    ensures rows[j].saved.conn.credential.Some? && Active(env.users, rows[j].saved.conn.credential.value)
  {
    hide Shape;
    assert Newest(env.now, rows[j], rows[req.id]) && Holds(g, env.users, rows[j]);
    SameOwner(env.users, rows[req.id].saved.conn.credential.value, rows[j].saved.conn.credential.value);
  }

  lemma StillActive(users: map<nat, User>, rows: map<nat, Row>, sessions: map<nat, Session>, req: Request, j: nat)
    requires Loaded(rows, sessions, req) && j in sessions && j != req.id
    requires rows[j].saved.conn.credential.Some? && Active(users, rows[j].saved.conn.credential.value)
    ensures j !in Cut(users, sessions, req)
  {
  }

  // ---------------------------------------------------------------- when it refuses

  lemma UnloadedKept<W>(g: Game<W>, env: Env, world: W, rows: map<nat, Row>, sessions: map<nat, Session>, req: Request, j: nat)
    requires Admitted(g, env, world, rows, sessions, req) && j in rows && j != req.id && !Current(rows[j], env.now)
    ensures StoredAt(g, env, world, rows, sessions, req, j) == rows[j]
  {
  }

  ghost function Writing<W>(g: Game<W>, env: Env, world: W, rows: map<nat, Row>, sessions: map<nat, Session>, req: Request): map<nat, Row>
    requires Loaded(rows, sessions, req)
  {
    Store(rows, Closing(g, env, world, sessions, req).lane.sessions, req.id, env.now)
  }

  // The requester ends with a character an open row owns only at the lease boundary.
  lemma OwnerHeld<W(!new)>(g: Game<W>, env: Env, world: W, rows: map<nat, Row>, sessions: map<nat, Session>, req: Request, j: nat)
    requires Admitted(g, env, world, rows, sessions, req) && Owned(g) && OwnOk(g, rows, env.now, env.users) && Lapses(rows, env.now)
    requires j in rows && j != req.id && !rows[j].closed && rows[j].character.Some?
    requires rows[j].character == StoredAt(g, env, world, rows, sessions, req, req.id).character
    ensures !Current(rows[j], env.now) && Held(rows, env.now, req.id, StoredAt(g, env, world, rows, sessions, req, req.id))
  {
    hide OwnOk, Owned, StoredAt;
    if j in sessions {
      NoLiveOwner(g, env, world, rows, sessions, req, j);
    }
  }

  // Rows written one after another: some rows are already those to be stored.
  function Mixed(rows: map<nat, Row>, stored: map<nat, Row>, written: set<nat>): map<nat, Row> {
    map j | j in rows.Keys + (stored.Keys * written) :: if j in stored && j in written then stored[j] else rows[j]
  }

  lemma MixedPair<W(!new)>(g: Game<W>, env: Env, world: W, rows: map<nat, Row>, sessions: map<nat, Session>, req: Request, i: nat, j: nat)
    requires Admitted(g, env, world, rows, sessions, req) && Owned(g) && OwnOk(g, rows, env.now, env.users) && Lapses(rows, env.now)
    requires i != j && (i == req.id || i in rows) && j in rows
    requires !Held(rows, env.now, req.id, StoredAt(g, env, world, rows, sessions, req, req.id))
    ensures var u := StoredAt(g, env, world, rows, sessions, req, i);
            !u.closed && !rows[j].closed && u.character.Some? ==> u.character != rows[j].character
  {
    hide StoredAt, Held, Holds, Owns, Newest;
    StoredOwn(g, env, world, rows, sessions, req, i);
    if i != req.id {
      BothOpen(rows, i, j);
    } else {
      var u := StoredAt(g, env, world, rows, sessions, req, i);
      if !u.closed && !rows[j].closed && u.character.Some? && u.character == rows[j].character {
        OwnerHeld(g, env, world, rows, sessions, req, j);
      }
    }
  }

  // No order of the upserts trips the index before the last of them.
  lemma MixedUnique<W(!new)>(g: Game<W>, env: Env, world: W, rows: map<nat, Row>, sessions: map<nat, Session>, req: Request, written: set<nat>)
    requires Admitted(g, env, world, rows, sessions, req) && Owned(g) && OwnOk(g, rows, env.now, env.users) && Lapses(rows, env.now)
    requires !Held(rows, env.now, req.id, StoredAt(g, env, world, rows, sessions, req, req.id))
    ensures Unique(Mixed(rows, Writing(g, env, world, rows, sessions, req), written))
  {
    hide Opening, Closing, Holds, Owns, Newest, StoredAt, Held, Lapses, Owned;
    OwnRowsOk(g, rows, env.now, env.users);
    var stored := Writing(g, env, world, rows, sessions, req);
    var mixed := Mixed(rows, stored, written);
    forall i, j | i in mixed && j in mixed && i != j && !mixed[i].closed && !mixed[j].closed && mixed[i].character.Some?
      ensures mixed[i].character != mixed[j].character
    {
      StoredIs(g, env, world, rows, sessions, req, i);
      StoredIs(g, env, world, rows, sessions, req, j);
      if i !in written && j !in written {
        BothOpen(rows, i, j);
      } else if i in written && j in written {
        StoredPair(g, env, world, rows, sessions, req, i, j);
      } else if i in written {
        MixedPair(g, env, world, rows, sessions, req, i, j);
      } else {
        MixedPair(g, env, world, rows, sessions, req, j, i);
      }
    }
  }

  lemma StoredPair<W(!new)>(g: Game<W>, env: Env, world: W, rows: map<nat, Row>, sessions: map<nat, Session>, req: Request, i: nat, j: nat)
    requires Admitted(g, env, world, rows, sessions, req) && Owned(g) && OwnOk(g, rows, env.now, env.users) && Lapses(rows, env.now)
    requires i != j && (i == req.id || i in rows) && (j == req.id || j in rows)
    requires !Held(rows, env.now, req.id, StoredAt(g, env, world, rows, sessions, req, req.id))
    ensures var u, v := StoredAt(g, env, world, rows, sessions, req, i), StoredAt(g, env, world, rows, sessions, req, j);
            !u.closed && !v.closed && u.character.Some? ==> u.character != v.character
  {
    hide StoredAt, Held, Holds, Owns, Newest;
    StoredOwn(g, env, world, rows, sessions, req, i);
    StoredOwn(g, env, world, rows, sessions, req, j);
    if j != req.id {
      MixedPair(g, env, world, rows, sessions, req, i, j);
    } else {
      MixedPair(g, env, world, rows, sessions, req, j, i);
    }
  }

  // The unique index refuses a dispatch exactly when another open row, at the last instant
  // of its lease, owns the character the requester would be stored with; and then it
  // refuses in every order of the writes, otherwise in none.
  lemma IndexRefuses<W(!new)>(g: Game<W>, env: Env, world: W, rows: map<nat, Row>, sessions: map<nat, Session>, req: Request)
    requires Admitted(g, env, world, rows, sessions, req) && Owned(g) && OwnOk(g, rows, env.now, env.users) && Lapses(rows, env.now)
    ensures var stored := Writing(g, env, world, rows, sessions, req);
            && (Unique(stored) <==> !Held(rows, env.now, req.id, StoredAt(g, env, world, rows, sessions, req, req.id)))
            && (Unique(stored) <==> forall written :: Unique(Mixed(rows, stored, written)))
  {
    assert Loaded(rows, sessions, req);
    WritingGrows(g, env, world, rows, sessions, req);
    hide *;
    var stored := Writing(g, env, world, rows, sessions, req);
    MixedAll(rows, stored);
    if Held(rows, env.now, req.id, StoredAt(g, env, world, rows, sessions, req, req.id)) {
      HeldClashes(g, env, world, rows, sessions, req);
    } else {
      forall written: set<nat>
        ensures Unique(Mixed(rows, stored, written))
      {
        MixedUnique(g, env, world, rows, sessions, req, written);
      }
    }
  }

  lemma WritingGrows<W>(g: Game<W>, env: Env, world: W, rows: map<nat, Row>, sessions: map<nat, Session>, req: Request)
    requires Loaded(rows, sessions, req)
    ensures rows.Keys <= Writing(g, env, world, rows, sessions, req).Keys
  {
    hide Closing;
  }

  lemma MixedAll(rows: map<nat, Row>, stored: map<nat, Row>)
    requires rows.Keys <= stored.Keys
    ensures Mixed(rows, stored, stored.Keys) == stored
  {
  }

  lemma HeldClashes<W(!new)>(g: Game<W>, env: Env, world: W, rows: map<nat, Row>, sessions: map<nat, Session>, req: Request)
    requires Admitted(g, env, world, rows, sessions, req) && Owned(g) && OwnOk(g, rows, env.now, env.users)
    requires Held(rows, env.now, req.id, StoredAt(g, env, world, rows, sessions, req, req.id))
    ensures !Unique(Writing(g, env, world, rows, sessions, req))
  {
    hide Closing, Opening, Holds, Owns, Newest, StoredAt, Owned;
    OwnRowsOk(g, rows, env.now, env.users);
    var u := StoredAt(g, env, world, rows, sessions, req, req.id);
    var j :| j in rows && j != req.id && !rows[j].closed && rows[j].character == u.character && rows[j].lastSeen == env.now - LEASE;
    UnloadedKept(g, env, world, rows, sessions, req, j);
    StoredIs(g, env, world, rows, sessions, req, j);
    StoredIs(g, env, world, rows, sessions, req, req.id);
    RequesterStored(g, env, world, rows, sessions, req);
    var stored := Writing(g, env, world, rows, sessions, req);
    assert req.id in stored && j in stored;
  }

  // ---------------------------------------------------------------- what is committed

  // From an orderly table a request in step is committed, unless the index refuses it.
  lemma ServeCommits<W(!new)>(g: Game<W>, env: Env, db: Database<W>, rows: map<nat, Row>, sessions: map<nat, Session>, req: Request)
    requires Admitted(g, env, db.world, rows, sessions, req) && Owned(g) && OwnOk(g, rows, env.now, env.users)
    requires Lapses(rows, env.now)
    ensures var r := Serve(g, env, db, rows, sessions, req);
            if Held(rows, env.now, req.id, StoredAt(g, env, db.world, rows, sessions, req, req.id)) then r.Aborted? else r.Committed?
  {
    hide Turn, Begin, Base, Conflict, Unique, Cut, Acceptable, Lapses, Held, OwnOk, Owned, Store, StoredAt;
    SessionsCurrent(g, env, db.world, rows, sessions, req);
    NoConflict(g, env, rows, sessions, req);
    IndexRefuses(g, env, db.world, rows, sessions, req);
  }

  lemma SessionsCurrent<W>(g: Game<W>, env: Env, world: W, rows: map<nat, Row>, sessions: map<nat, Session>, req: Request)
    requires Admitted(g, env, world, rows, sessions, req)
    ensures forall j :: j in sessions && j != req.id ==> j in rows && Current(rows[j], env.now)
    ensures Acceptable(sessions[req.id], req)
  {
  }

  // The index refuses this dispatch: the request has a session, and what the requester
  // would be stored with is held by another row.
  ghost predicate Blocked<W>(g: Game<W>, env: Env, db: Database<W>, req: Request) {
    var rows := Sweep(db.rows, env.now);
    && (req.id in rows || (req.kind == Open && req.sequence == 1))
    && Held(rows, env.now, req.id, SaveRow(Closing(g, env, db.world, Sessions(rows, req, env.now), req).lane.sessions[req.id], env.now))
  }

  // An honest edge is always answered: from every reachable state, when nothing the
  // dispatch depends on fails, its current request is refused exactly by the index at the
  // lease boundary, and otherwise answered, with its own sequence.
  lemma HonestAnswered<W(!new)>(g: Game<W>, world: W, edge: nat, id: nat, ls: seq<Label>, t: System<W>, users: map<nat, User>, env: Env)
    requires Owned(g) && Reaches(g, Initial(world, edge, id), ls, t) && Advancing(users, ls)
    requires Timely(t, t.term.req, env) && Advances(UsersAfter(users, ls), env.users) && !env.fault
    ensures var r := Dispatch(g, env, t.db, t.term.req);
            if Blocked(g, env, t.db, t.term.req) then r.Aborted?
            else !r.Aborted? && r.reply.sequence == t.term.req.sequence
  {
    hide Reaches, Owned, Advancing, Timely, OwnOk, Serve, Acceptable, Inv, Blocked;
    HonestInStep(g, world, edge, id, ls, t, env);
    InitialOwn(g, world, edge, id, users);
    RunOwn(g, Initial(world, edge, id), ls, t, users);
    InitialInv(world, edge, id);
    RunInv(g, Initial(world, edge, id), ls, t);
    AnsweredInStep(g, t, UsersAfter(users, ls), env);
  }

  lemma AnsweredInStep<W(!new)>(g: Game<W>, t: System<W>, users: map<nat, User>, env: Env)
    requires Owned(g) && OwnOk(g, t.db.rows, t.clock, users) && Inv(t)
    requires Timely(t, t.term.req, env) && Advances(users, env.users) && !env.fault && WellFormed(t.term.req)
    requires var q := t.term.req; var rows := Sweep(t.db.rows, env.now);
             && (q.kind == Open ==> q.sequence == 1)
             && (q.id in rows ==> q.sequence >= rows[q.id].sequence)
             && (q.id in rows || q.kind == Open ==> Acceptable(LoadRow(Start(rows, q)), q))
    ensures var r := Dispatch(g, env, t.db, t.term.req);
            if Blocked(g, env, t.db, t.term.req) then r.Aborted?
            else !r.Aborted? && r.reply.sequence == t.term.req.sequence
  {
    hide Serve, OwnOk, Owned, Advances, Inv, Held, Lapses, Acceptable, Closing, SaveRow;
    var q := t.term.req;
    var rows := Sweep(t.db.rows, env.now);
    SweptOwn(g, t.db.rows, t.clock, users, env.now, env.users);
    SweepLapses(t.db.rows, env.now);
    if q.id in rows || (q.sequence == 1 && q.kind == Open) {
      var sessions := Sessions(rows, q, env.now);
      assert Loaded(rows, sessions, q);
      OwnRowsOk(g, rows, env.now, env.users);
      InStepAdmitted(g, t, env, rows, sessions);
      ServeCommits(g, env, t.db, rows, sessions, q);
      RequesterRowStored(g, env, t.db.world, rows, sessions, q);
      if Serve(g, env, t.db, rows, sessions, q).Committed? {
        ServedInStep(g, t, env, rows, sessions);
      }
    }
  }

  lemma RequesterRowStored<W>(g: Game<W>, env: Env, world: W, rows: map<nat, Row>, sessions: map<nat, Session>, req: Request)
    requires Loaded(rows, sessions, req)
    ensures StoredAt(g, env, world, rows, sessions, req, req.id) ==
            SaveRow(Closing(g, env, world, sessions, req).lane.sessions[req.id], env.now)
  {
  }

  lemma InStepAdmitted<W>(g: Game<W>, t: System<W>, env: Env, rows: map<nat, Row>, loaded: map<nat, Session>)
    requires Loaded(rows, loaded, t.term.req) && RowsOk(rows)
    requires forall j :: (j in rows && (Current(rows[j], env.now) || j == t.term.req.id)) <==> (j in loaded && j in rows)
    requires Acceptable(loaded[t.term.req.id], t.term.req) && (t.term.req.kind == Open ==> t.term.req.sequence == 1)
    ensures Admitted(g, env, t.db.world, rows, loaded, t.term.req)
  {
    hide Begin, Base, Shape, Grows, CutOff, Cut;
    StartOk(rows, t.term.req);
    RequesterBegins(g, env, rows, loaded, t.term.req, t.db.world);
  }

  lemma ServedInStep<W>(g: Game<W>, t: System<W>, env: Env, rows: map<nat, Row>, loaded: map<nat, Session>)
    requires Loaded(rows, loaded, t.term.req) && RowsOk(rows)
    requires Serve(g, env, t.db, rows, loaded, t.term.req).Committed?
    requires Start(rows, t.term.req).sequence <= t.term.req.sequence
    ensures Serve(g, env, t.db, rows, loaded, t.term.req).reply.sequence == t.term.req.sequence
  {
    hide Serve, KeptRow, CutRow, Unique;
    ServeStep(g, env, t.db, rows, loaded, t.term.req);
    var r := Serve(g, env, t.db, rows, loaded, t.term.req);
    var q := t.term.req;
  }
}
