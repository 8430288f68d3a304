// Who plays which character, over whole runs: the lease, the owner column, the
// in-memory hub and the credentials keep one character with one live session.
module Ownership {
  import opened Wrappers
  import opened Terminalwire
  import opened CoreSession
  import opened CoreDispatch
  import opened DispatchFacts
  import opened RowFacts
  import opened Edge
  import opened Protocol
  import opened Honest
  import opened Guarantees

  // Character lists hold only the user's own characters.
  ghost predicate Owned<W(!new)>(g: Game<W>) {
    forall w: W, user: nat, k: nat :: k < |g.characters(w, user)| ==> g.owner(g.characters(w, user)[k]) == user
  }

  // ---------------------------------------------------------------- one command

  // How a command that does not fail may change the connection of the requester.
  ghost predicate MayBecome<W>(g: Game<W>, env: Env, sessions: map<nat, Session>, id: nat, c: Conn, d: Conn) {
    || (d.phase == c.phase && d.character == c.character && d.credential == c.credential)
    || (!SignedIn(d))
    || (d.phase.Authenticated? && d.credential.Some? && Active(env.users, d.credential.value))
    || (c.phase.Authenticated? && d.phase.Authenticated? && d.credential == c.credential)
    || (c.phase.Authenticated? && d.phase.InGame? && d.credential == c.credential && c.credential.Some?
        && d.character.Some? && !Taken(sessions, id, d.character.value)
        && g.owner(d.character.value) == c.credential.value.user)
  }

  lemma SelectConn<W(!new)>(g: Game<W>, env: Env, lane: Lane<W>, id: nat, choice: nat)
    requires id in lane.sessions && Owned(g) && lane.sessions[id].conn.phase.Authenticated?
    ensures MayBecome(g, env, lane.sessions, id, lane.sessions[id].conn,
                      SelectCharacter(g, lane, id, choice).0.sessions[id].conn)
  {
    hide Apply, Tell, Taken, Present, Active;
    var c := lane.sessions[id].conn;
    if c.credential.Some? {
      var mine := g.characters(lane.world, c.credential.value.user);
      if choice < 1 || choice > |mine| {
        TellSteps(lane, id, [g.notice(Rejected)]);
      } else {
        var character := mine[choice - 1];
        var home := g.home(lane.world, character);
        assert g.owner(g.characters(lane.world, c.credential.value.user)[choice - 1]) == c.credential.value.user;
        if home.Some? {
          if Taken(lane.sessions, id, character) {
            SpeakSteps(lane, id, c.(character := None), [g.notice(Online)]);
          } else {
            var entered := SetConn(lane, id, c.(character := Some(character), room := home, phase := InGame));
            var listed := entered.(players := entered.players + {id});
            var e := g.enter(lane.world, Present(listed, id), id);
            ApplySteps(listed, id, e.(room := home), Enter(Present(listed, id), id));
          }
        }
      }
    }
  }

  lemma StartSignInConn<W>(g: Game<W>, lane: Lane<W>, id: nat)
    requires id in lane.sessions
    ensures !SignedIn(StartSignIn(g, lane, id).sessions[id].conn)
  {
    SpeakSteps(lane, id, lane.sessions[id].conn.(phase := AwaitingUsername), [g.notice(Username)]);
  }

  lemma CheckConn<W>(g: Game<W>, env: Env, lane: Lane<W>, id: nat, notify: bool)
    requires id in lane.sessions
    ensures MayBecome(g, env, lane.sessions, id, lane.sessions[id].conn,
                      CheckAuthentication(g, env, lane, id, notify).0.sessions[id].conn)
  {
    hide Tell, Active, Taken;
    var c := lane.sessions[id].conn;
    TellSteps(lane, id, [g.notice(Pending)]);
    if id in env.pairings {
      SpeakSteps(lane, id, c.(credential := Some(env.pairings[id].credential), phase := Authenticated), [g.notice(Accepted)]);
    }
  }

  lemma RequestConn<W>(g: Game<W>, env: Env, lane: Lane<W>, id: nat, username: string)
    requires id in lane.sessions
    ensures var r := RequestSignIn(g, env, lane, id, username);
            r.1 != Failed ==> !SignedIn(r.0.sessions[id].conn)
  {
    hide Tell;
    var c := lane.sessions[id].conn;
    if env.challenge.Some? {
      SpeakSteps(lane, id, c.(view := g.named(c, username), token := env.challenge.value, phase := AwaitingAuth),
                 [g.notice(Instructions)]);
    }
  }

  lemma IntentConn<W(!new)>(g: Game<W>, env: Env, lane: Lane<W>, id: nat, intent: Intent)
    requires id in lane.sessions && Owned(g)
    ensures var r := FollowIntent(g, env, lane, id, intent);
            r.1 != Failed ==> MayBecome(g, env, lane.sessions, id, lane.sessions[id].conn, r.0.sessions[id].conn)
  {
    hide Tell, Active, Taken, CheckAuthentication, RequestSignIn, SelectCharacter, StartSignIn;
    var c := lane.sessions[id].conn;
    match intent
    case Answer(lines, view) => SpeakSteps(lane, id, c.(view := view), lines);
    case Leave(lines) => TellSteps(lane, id, lines);
    case Restart(view) => StartSignInConn(g, SetConn(lane, id, c.(view := view)), id);
    case Name(username) => RequestConn(g, env, lane, id, username);
    case Check => CheckConn(g, env, lane, id, true);
    case Choose(choice) => if c.phase.Authenticated? { SelectConn(g, env, lane, id, choice); }
  }

  lemma PerformConn<W(!new)>(g: Game<W>, env: Env, lane: Lane<W>, req: Request)
    requires req.id in lane.sessions && Owned(g)
    ensures var r := Perform(g, env, lane, req);
            r.1 != Failed ==> MayBecome(g, env, lane.sessions, req.id, lane.sessions[req.id].conn, r.0.sessions[req.id].conn)
  {
    hide Tell, Active, Taken, CheckAuthentication, StartSignIn, FollowIntent, Apply, Present;
    var id := req.id;
    var s := lane.sessions[id];
    match req.kind
    case Open => StartSignInConn(g, Tell(lane, id, [g.notice(Welcome)]), id);
    case Poll => CheckConn(g, env, lane, id, false);
    case Close =>
    case Input =>
      if s.conn.phase.InGame? && s.conn.character.Some? {
        ApplySteps(lane, id, g.play(lane.world, Present(lane, id), id, req.line), Play(Present(lane, id), id, req.line));
      } else if s.conn.phase.Connected? {
        StartSignInConn(g, lane, id);
      } else {
        IntentConn(g, env, lane, id, g.intent(s.conn, req.line));
      }
  }

  // The hub's claims do not change between the opening of the turn and the command.
  lemma TakenBefore(a: map<nat, Session>, b: map<nat, Session>, id: nat, character: nat)
    requires a.Keys == b.Keys
    requires forall j :: j in a && j != id ==> a[j].saved.closed == b[j].saved.closed && a[j].conn == b[j].conn
    ensures Taken(a, id, character) <==> Taken(b, id, character)
  {
  }

  lemma BecomeBefore<W>(g: Game<W>, env: Env, a: map<nat, Session>, b: map<nat, Session>, id: nat, c: Conn, d: Conn)
    requires MayBecome(g, env, a, id, c, d) && a.Keys == b.Keys
    requires forall j :: j in a && j != id ==> a[j].saved.closed == b[j].saved.closed && a[j].conn == b[j].conn
    ensures MayBecome(g, env, b, id, c, d)
  {
    hide Taken;
    if d.character.Some? {
      TakenBefore(a, b, id, d.character.value);
    }
  }

  lemma SeenUnmoved<W>(g: Game<W>, lane: Lane<W>, id: nat, looks: bool)
    requires id in lane.sessions
    ensures var before := CaptureAll(if looks then Observe(g, lane, id, true) else lane);
            && before.sessions.Keys == lane.sessions.Keys
            && before.sessions[id].conn == lane.sessions[id].conn == before.sessions[id].saved.conn
            && forall j :: j in lane.sessions && j != id ==>
                 before.sessions[j].saved.closed == lane.sessions[j].saved.closed && before.sessions[j].conn == lane.sessions[j].conn
  {
    ObserveSteps(g, lane, id, true);
  }

  lemma KeepConn<W>(g: Game<W>, before: Lane<W>, after: Lane<W>, outcome: Outcome, id: nat)
    requires id in before.sessions && after.sessions.Keys == before.sessions.Keys
    ensures Keep(g, before, after, outcome, id).sessions[id].conn ==
            if outcome == Failed then before.sessions[id].saved.conn else after.sessions[id].conn
  {
    TellSteps(RollBack(before, after.players, id), id, [g.notice(Refused)]);
  }

  lemma ExecuteConn<W(!new)>(g: Game<W>, env: Env, lane: Lane<W>, req: Request, wasPlaying: bool)
    requires req.id in lane.sessions && Owned(g)
    ensures var r := Execute(g, env, lane, req, wasPlaying);
            var c, d := lane.sessions[req.id].conn, r.0.sessions[req.id].conn;
            if r.1 == Failed then d == c else MayBecome(g, env, lane.sessions, req.id, c, d)
  {
    hide Perform, Taken, Active, MayBecome, Observe, CaptureAll, Keep;
    var before := CaptureAll(if req.kind == Input && wasPlaying then Observe(g, lane, req.id, true) else lane);
    SeenUnmoved(g, lane, req.id, req.kind == Input && wasPlaying);
    PerformConn(g, env, before, req);
    var (after, outcome) := Perform(g, env, before, req);
    KeepConn(g, before, after, outcome, req.id);
    if outcome != Failed {
      BecomeBefore(g, env, before.sessions, lane.sessions, req.id, before.sessions[req.id].conn, after.sessions[req.id].conn);
    }
  }

  lemma TurnConn<W(!new)>(g: Game<W>, env: Env, lane: Lane<W>, req: Request, wasClosed: bool)
    requires req.id in lane.sessions && Owned(g)
    ensures var t := Turn(g, env, lane, req, wasClosed);
            var c, d := lane.sessions[req.id].conn, t.lane.sessions[req.id].conn;
            if t.outcome.None? || t.outcome == Some(Failed) then d == c
            else MayBecome(g, env, lane.sessions, req.id, c, d)
  {
    hide Execute, Depart, LookAround, Taken, Active, MayBecome, Owned, Steps;
    var id := req.id;
    var c := lane.sessions[id].conn;
    var wasPlaying := c.phase.InGame? && c.character.Some?;
    ExecuteConn(g, env, lane, req, wasPlaying);
    var ran := if IsFresh(lane.sessions[id], req.sequence) then Execute(g, env, lane, req, wasPlaying).0 else lane;
    var who := if c.character.Some? then c.character.value else 0;
    DepartSteps(g, ran, id, who);
    var told := if !wasClosed && ran.sessions[id].saved.closed && wasPlaying then Depart(g, ran, id, who) else ran;
    LookAroundSteps(g, told, id, req.kind == Poll);
  }

  // ---------------------------------------------------------------- the requester

  // In the game at the opening, the requester holds the claim to its character.
  lemma OpeningClaim<W>(g: Game<W>, env: Env, world: W, sessions: map<nat, Session>, req: Request)
    requires req.id in sessions
    ensures var s := OpeningSession(g, env, world, sessions, req);
            Playing(s.saved.closed, s.conn) ==>
              !Taken(Opening(g, env, world, sessions, req).sessions, req.id, s.conn.character.value)
  {
    hide Taken, Base;
    WriteFacts();
    var base := Base(g, env, sessions, req);
    var lane := Opening(g, env, world, sessions, req);
    forall character: nat
      ensures Taken(base, req.id, character) <==> Taken(lane.sessions, req.id, character)
    {
      TakenBefore(base, lane.sessions, req.id, character);
    }
  }

  // Signed in at the end of the turn means holding a valid credential.
  lemma ClosingCredential<W(!new)>(g: Game<W>, env: Env, world: W, rows: map<nat, Row>, sessions: map<nat, Session>, req: Request)
    requires Loaded(rows, sessions, req) && RowsOk(rows) && Owned(g)
    ensures var c0 := Start(rows, req).saved.conn;
            var t := Closing(g, env, world, sessions, req);
            var f := t.lane.sessions[req.id];
            !f.saved.closed && SignedIn(f.conn) ==>
              && f.conn.credential.Some? && Active(env.users, f.conn.credential.value)
              && ((SignedIn(c0) && f.conn.credential == c0.credential) || (t.outcome.Some? && t.outcome.value != Failed))
  {
    hide Opening, Turn, Taken, Active, Shape;
    OpeningConn(g, env, world, rows, sessions, req);
    ClosingTurned(g, env, rows, sessions, req, world);
    TurnConn(g, env, Opening(g, env, world, sessions, req), req, sessions[req.id].saved.closed);
  }

  // In the game at the end of the turn means holding the only claim to one's own character.
  lemma ClosingClaim<W(!new)>(g: Game<W>, env: Env, world: W, rows: map<nat, Row>, sessions: map<nat, Session>, req: Request)
    requires Loaded(rows, sessions, req) && RowsOk(rows) && Owned(g)
    requires var r := Start(rows, req); Playing(r.saved.closed, r.saved.conn) ==>
               r.saved.conn.credential.Some? && g.owner(r.saved.conn.character.value) == r.saved.conn.credential.value.user
    ensures var f := Closing(g, env, world, sessions, req).lane.sessions[req.id];
            Playing(f.saved.closed, f.conn) ==>
              && !Taken(Opening(g, env, world, sessions, req).sessions, req.id, f.conn.character.value)
              && f.conn.credential.Some? && g.owner(f.conn.character.value) == f.conn.credential.value.user
  {
    hide Opening, Turn, Taken, Active, Shape;
    OpeningConn(g, env, world, rows, sessions, req);
    OpeningClaim(g, env, world, sessions, req);
    ClosingTurned(g, env, rows, sessions, req, world);
    TurnConn(g, env, Opening(g, env, world, sessions, req), req, sessions[req.id].saved.closed);
  }

  // ---------------------------------------------------------------- every row

  predicate Signed(r: Row) {
    !r.closed && SignedIn(r.saved.conn)
  }

  ghost predicate Holds<W>(g: Game<W>, users: map<nat, User>, r: Row) {
    && RowOk(r)
    && (!r.closed && r.character.Some? ==> Playing(r.closed, r.saved.conn) && r.saved.conn.character == r.character)
    && (Signed(r) ==>
          && r.saved.conn.credential.Some? && r.saved.conn.credential.value.user in users
          && r.saved.conn.credential.value.version <= users[r.saved.conn.credential.value.user].version)
    && (Playing(r.closed, r.saved.conn) ==>
          r.saved.conn.credential.Some? && g.owner(r.saved.conn.character.value) == r.saved.conn.credential.value.user)
  }

  // A live session's credential is at least as new as any other of the same user.
  ghost predicate Newest(now: int, r: Row, other: Row) {
    Current(r, now) && Signed(r) && Signed(other)
    && r.saved.conn.credential.Some? && other.saved.conn.credential.Some?
    && r.saved.conn.credential.value.user == other.saved.conn.credential.value.user
    ==> other.saved.conn.credential.value.version <= r.saved.conn.credential.value.version
  }

  ghost predicate Owns(now: int, r: Row) {
    Current(r, now) && Playing(r.closed, r.saved.conn) ==> r.character == r.saved.conn.character
  }

  ghost predicate OwnOk<W>(g: Game<W>, rows: map<nat, Row>, now: int, users: map<nat, User>) {
    && Unique(rows)
    && (forall j :: j in rows ==> Holds(g, users, rows[j]) && Owns(now, rows[j]))
    && (forall j, k :: j in rows && k in rows ==> Newest(now, rows[j], rows[k]))
  }

  // Credential versions never go back, and a version keeps its activity.
  ghost predicate Advances(u: map<nat, User>, v: map<nat, User>) {
    forall x :: x in u ==> x in v && v[x].version >= u[x].version && (v[x].version == u[x].version ==> v[x].active == u[x].active)
  }

  lemma SweptOwn<W>(g: Game<W>, rows: map<nat, Row>, clock: int, users: map<nat, User>, now: int, later: map<nat, User>)
    requires OwnOk(g, rows, clock, users) && now >= clock && Advances(users, later)
    ensures OwnOk(g, Sweep(rows, now), now, later)
    ensures OwnOk(g, rows, now, later)
  {
    hide Shape;
    var swept := Sweep(rows, now);
    forall j, k | j in rows && k in rows
      ensures Newest(now, rows[j], rows[k])
    {
      assert Newest(clock, rows[j], rows[k]);
    }
    forall j | j in rows
      ensures Holds(g, later, rows[j]) && Owns(now, rows[j])
    {
      assert Holds(g, users, rows[j]) && Owns(clock, rows[j]);
    }
  }

  lemma BystanderOwn<W>(g: Game<W>, users: map<nat, User>, now: int, r: Row, u: Row, cut: bool)
    requires Holds(g, users, r) && Owns(now, r) && if cut then CutRow(r, u) else KeptRow(r, u)
    ensures Holds(g, users, u) && Owns(now, u)
    ensures u.saved.conn == r.saved.conn && u.lastSeen == r.lastSeen && (r.closed ==> u.closed)
    ensures cut ==> u.closed
    ensures !u.closed && u.character.Some? && Current(r, now) ==> r.character == u.character
  {
  }

  lemma RequesterOwn<W(!new)>(g: Game<W>, env: Env, world: W, rows: map<nat, Row>, sessions: map<nat, Session>, req: Request)
    requires Loaded(rows, sessions, req) && Owned(g) && OwnOk(g, rows, env.now, env.users)
    requires Acceptable(sessions[req.id], req)
    requires IsFresh(Opening(g, env, world, sessions, req).sessions[req.id], req.sequence) && req.kind == Open
             ==> sessions[req.id].sequence == 0
    ensures var f := Closing(g, env, world, sessions, req).lane.sessions[req.id];
            var u := SaveRow(f, env.now);
            Holds(g, env.users, u) && Owns(env.now, u) && (Signed(u) ==> Active(env.users, u.saved.conn.credential.value))
  {
    hide Turn, Taken, Shape, Grows, Cut, Begin, Base;
    OwnRowsOk(g, rows, env.now, env.users);
    ServeRequester(g, env, rows, sessions, req, world);
    ClosingCredential(g, env, world, rows, sessions, req);
    assert req.id in rows ==> Holds(g, env.users, rows[req.id]);
    ClosingClaim(g, env, world, rows, sessions, req);
    StartOk(rows, req);
    var f := Closing(g, env, world, sessions, req).lane.sessions[req.id];
    StoredShape(req, env.now, Start(rows, req), SaveRow(f, env.now),
                Record(req, OpeningSession(g, env, world, sessions, req), Closing(g, env, world, sessions, req)),
                req.id in Cut(env.users, sessions, req));
  }

  lemma OwnRowsOk<W>(g: Game<W>, rows: map<nat, Row>, now: int, users: map<nat, User>)
    requires OwnOk(g, rows, now, users)
    ensures RowsOk(rows)
  {
    hide Shape;
    forall j | j in rows
      ensures RowOk(rows[j])
    {
      assert Holds(g, users, rows[j]);
    }
  }

  // The stored row of one session after the turn.
  ghost function StoredAt<W>(g: Game<W>, env: Env, world: W, rows: map<nat, Row>, sessions: map<nat, Session>, req: Request, j: nat): Row
    requires Loaded(rows, sessions, req) && (j == req.id || j in rows)
  {
    var t := Closing(g, env, world, sessions, req);
    if j == req.id then SaveRow(t.lane.sessions[j], env.now)
    else if j in sessions && t.lane.sessions[j].dirty then SaveRow(t.lane.sessions[j], rows[j].lastSeen)
    else rows[j]
  }

  // The requests that reach the write-back.
  ghost predicate Admitted<W>(g: Game<W>, env: Env, world: W, rows: map<nat, Row>, sessions: map<nat, Session>, req: Request) {
    && Loaded(rows, sessions, req) && Acceptable(sessions[req.id], req)
    && (IsFresh(Opening(g, env, world, sessions, req).sessions[req.id], req.sequence) && req.kind == Open
        ==> sessions[req.id].sequence == 0)
    && (forall j :: j in rows && (Current(rows[j], env.now) || j == req.id) <==> j in sessions && j in rows)
  }

  lemma StoredOwn<W(!new)>(g: Game<W>, env: Env, world: W, rows: map<nat, Row>, sessions: map<nat, Session>, req: Request, j: nat)
    requires Admitted(g, env, world, rows, sessions, req) && Owned(g) && OwnOk(g, rows, env.now, env.users)
    requires j == req.id || j in rows
    ensures var u := StoredAt(g, env, world, rows, sessions, req, j);
            && Holds(g, env.users, u) && Owns(env.now, u)
            && (j != req.id ==> u.saved.conn == rows[j].saved.conn && u.lastSeen == rows[j].lastSeen
                                && (rows[j].closed ==> u.closed)
                                && (!u.closed && u.character.Some? ==> rows[j].character == u.character))
            && (j == req.id && Signed(u) ==> Active(env.users, u.saved.conn.credential.value))
  {
    hide Closing, Opening, Unique, Holds, Owns, Newest, SaveRow, CutRow, KeptRow;
    OwnRowsOk(g, rows, env.now, env.users);
    if j == req.id {
      RequesterOwn(g, env, world, rows, sessions, req);
    } else {
      assert Holds(g, env.users, rows[j]) && Owns(env.now, rows[j]);
      if j in sessions {
        ServeBystander(g, env, rows, sessions, req, world, j);
        var t := Closing(g, env, world, sessions, req);
        BystanderOwn(g, env.users, env.now, rows[j], StoredAt(g, env, world, rows, sessions, req, j),
                     j in Cut(env.users, sessions, req) && t.outcome != Some(Failed));
        LoadedCurrent(g, env, world, rows, sessions, req, j);
      }
    }
  }

  lemma LoadedCurrent<W>(g: Game<W>, env: Env, world: W, rows: map<nat, Row>, sessions: map<nat, Session>, req: Request, j: nat)
    requires Admitted(g, env, world, rows, sessions, req) && j in sessions && j != req.id
    ensures j in rows && Current(rows[j], env.now) && sessions[j] == LoadRow(rows[j])
  {
  }

  // Without a failed command every live signed-in bystander holds a valid credential.
  lemma UncutActive<W>(g: Game<W>, env: Env, world: W, rows: map<nat, Row>, sessions: map<nat, Session>, req: Request, j: nat)
    requires Admitted(g, env, world, rows, sessions, req) && RowsOk(rows) && j in sessions && j != req.id
    requires Closing(g, env, world, sessions, req).outcome != Some(Failed)
    ensures var u := StoredAt(g, env, world, rows, sessions, req, j);
            Signed(u) && u.saved.conn.credential.Some? ==> Active(env.users, u.saved.conn.credential.value)
  {
    hide Turn, Opening, Active, Grows, Shape, SaveRow;
    ServeBystander(g, env, rows, sessions, req, world, j);
    LoadedCurrent(g, env, world, rows, sessions, req, j);
    StoredUnfold(g, env, world, rows, sessions, req, j);
  }

  lemma StoredUnfold<W>(g: Game<W>, env: Env, world: W, rows: map<nat, Row>, sessions: map<nat, Session>, req: Request, j: nat)
    requires Loaded(rows, sessions, req) && j in sessions && j != req.id && j in rows
    ensures var f := Closing(g, env, world, sessions, req).lane.sessions[j];
            StoredAt(g, env, world, rows, sessions, req, j) == if f.dirty then SaveRow(f, rows[j].lastSeen) else rows[j]
  {
    hide Closing, SaveRow;
  }

  lemma CurrentVersion(users: map<nat, User>, c: Credential, d: Credential)
    requires Active(users, c) && c.user == d.user && d.version <= users[d.user].version
    ensures d.version <= c.version
  {
  }

  lemma NewestFor<W(!new)>(g: Game<W>, env: Env, world: W, rows: map<nat, Row>, sessions: map<nat, Session>, req: Request, j: nat, k: nat)
    requires Admitted(g, env, world, rows, sessions, req) && Owned(g) && OwnOk(g, rows, env.now, env.users)
    requires (j == req.id || j in rows) && (k == req.id || k in rows)
    ensures Newest(env.now, StoredAt(g, env, world, rows, sessions, req, j), StoredAt(g, env, world, rows, sessions, req, k))
  {
    hide Closing, Opening, Unique, SaveRow, CutRow, KeptRow, Owns, StoredAt, Shape;
    var u, v := StoredAt(g, env, world, rows, sessions, req, j), StoredAt(g, env, world, rows, sessions, req, k);
    StoredOwn(g, env, world, rows, sessions, req, j);
    StoredOwn(g, env, world, rows, sessions, req, k);
    OwnRowsOk(g, rows, env.now, env.users);
    if Current(u, env.now) && Signed(u) && Signed(v) && u.saved.conn.credential.value.user == v.saved.conn.credential.value.user {
      if j == req.id {
        CurrentVersion(env.users, u.saved.conn.credential.value, v.saved.conn.credential.value);
      } else if k != req.id {
        assert Newest(env.now, rows[j], rows[k]);
      } else {
        NewestForRequester(g, env, world, rows, sessions, req, j);
      }
    }
  }

  lemma NewestForRequester<W(!new)>(g: Game<W>, env: Env, world: W, rows: map<nat, Row>, sessions: map<nat, Session>, req: Request, j: nat)
    requires Admitted(g, env, world, rows, sessions, req) && Owned(g) && OwnOk(g, rows, env.now, env.users)
    requires j in rows && j != req.id
    ensures Newest(env.now, StoredAt(g, env, world, rows, sessions, req, j), StoredAt(g, env, world, rows, sessions, req, req.id))
  {
    hide Opening, Turn, Unique, CutRow, KeptRow, Owns, Shape, Active, StoredAt, Closing;
    var u, v := StoredAt(g, env, world, rows, sessions, req, j), StoredAt(g, env, world, rows, sessions, req, req.id);
    StoredOwn(g, env, world, rows, sessions, req, j);
    StoredOwn(g, env, world, rows, sessions, req, req.id);
    OwnRowsOk(g, rows, env.now, env.users);
    if Current(u, env.now) && Signed(u) && Signed(v) && u.saved.conn.credential.value.user == v.saved.conn.credential.value.user {
      ClosingCredential(g, env, world, rows, sessions, req);
      RequesterStored(g, env, world, rows, sessions, req);
      var c0 := Start(rows, req).saved.conn;
      var t := Closing(g, env, world, sessions, req);
      if SignedIn(c0) && v.saved.conn.credential == c0.credential {
        assert req.id in rows;
        assert Newest(env.now, rows[j], rows[req.id]);
        StartOpen(g, env, world, rows, sessions, req);
      } else {
        UncutActive(g, env, world, rows, sessions, req, j);
        CurrentVersion(env.users, u.saved.conn.credential.value, v.saved.conn.credential.value);
      }
    }
  }

  lemma RequesterStored<W>(g: Game<W>, env: Env, world: W, rows: map<nat, Row>, sessions: map<nat, Session>, req: Request)
    requires Loaded(rows, sessions, req)
    ensures var f := Closing(g, env, world, sessions, req).lane.sessions[req.id];
            var v := StoredAt(g, env, world, rows, sessions, req, req.id);
            v.saved.conn == f.conn && v.closed == f.saved.closed && v.lastSeen == env.now
            && v.character == if Playing(f.saved.closed, f.conn) then f.conn.character else None
  {
    hide Closing;
  }

  lemma StartOpen<W>(g: Game<W>, env: Env, world: W, rows: map<nat, Row>, sessions: map<nat, Session>, req: Request)
    requires Loaded(rows, sessions, req) && RowsOk(rows)
    ensures StoredAt(g, env, world, rows, sessions, req, req.id).closed || !Start(rows, req).closed
  {
    hide Opening, Turn, Taken, Active, Shape;
    StartOk(rows, req);
    OpeningConn(g, env, world, rows, sessions, req);
    ClosingTurned(g, env, rows, sessions, req, world);
  }

  // ---------------------------------------------------------------- conflicting ownership

  lemma BothOpen(rows: map<nat, Row>, i: nat, j: nat)
    requires Unique(rows) && i in rows && j in rows && i != j
    ensures !rows[i].closed && !rows[j].closed && rows[i].character.Some? ==> rows[i].character != rows[j].character
  {
  }

  lemma StoredIs<W>(g: Game<W>, env: Env, world: W, rows: map<nat, Row>, sessions: map<nat, Session>, req: Request, j: nat)
    requires Loaded(rows, sessions, req) && RowsOk(rows) && Acceptable(sessions[req.id], req)
    requires IsFresh(Opening(g, env, world, sessions, req).sessions[req.id], req.sequence) && req.kind == Open
             ==> sessions[req.id].sequence == 0
    ensures var stored := Store(rows, Closing(g, env, world, sessions, req).lane.sessions, req.id, env.now);
            j in stored ==> (j == req.id || j in rows) && stored[j] == StoredAt(g, env, world, rows, sessions, req, j)
  {
    ServeRequester(g, env, rows, sessions, req, world);
    hide Opening, Closing, SaveRow, RequesterRow;
  }

  // Two other live sessions never play one character when the sessions are loaded.
  lemma NoConflict<W>(g: Game<W>, env: Env, rows: map<nat, Row>, sessions: map<nat, Session>, req: Request)
    requires Loaded(rows, sessions, req) && OwnOk(g, rows, env.now, env.users)
    requires forall j :: j in sessions && j != req.id ==> j in rows && Current(rows[j], env.now)
    ensures !Conflict(Base(g, env, sessions, req), req.id)
  {
    var base := Base(g, env, sessions, req);
    OwnRowsOk(g, rows, env.now, env.users);
    forall j, k | j in base && k in base && j != req.id && k != req.id && j != k
                  && Playing(base[j].saved.closed, base[j].conn) && Playing(base[k].saved.closed, base[k].conn)
      ensures base[j].conn.character != base[k].conn.character
    {
      PlaysInRow(g, env, rows, sessions, req, j);
      PlaysInRow(g, env, rows, sessions, req, k);
      BothOpen(rows, j, k);
    }
  }

  lemma PlaysInRow<W>(g: Game<W>, env: Env, rows: map<nat, Row>, sessions: map<nat, Session>, req: Request, j: nat)
    requires Loaded(rows, sessions, req) && OwnOk(g, rows, env.now, env.users) && RowsOk(rows)
    requires j in sessions && j != req.id && j in rows && Current(rows[j], env.now)
    ensures var s := Base(g, env, sessions, req)[j];
            Playing(s.saved.closed, s.conn) ==>
              !rows[j].closed && rows[j].character.Some? && rows[j].character == s.conn.character
  {
    hide Shape;
    assert Owns(env.now, rows[j]) && RowOk(rows[j]);
    RecheckFacts(g, env.users, sessions[j]);
  }

  lemma ServedRows<W>(g: Game<W>, env: Env, db: Database<W>, rows: map<nat, Row>, sessions: map<nat, Session>, req: Request)
    requires Loaded(rows, sessions, req) && Serve(g, env, db, rows, sessions, req).Committed?
    ensures var stored := Serve(g, env, db, rows, sessions, req).db.rows;
            && stored == Store(rows, Closing(g, env, db.world, sessions, req).lane.sessions, req.id, env.now)
            && Unique(stored) && Acceptable(sessions[req.id], req)
            && (IsFresh(Opening(g, env, db.world, sessions, req).sessions[req.id], req.sequence) && req.kind == Open
                ==> sessions[req.id].sequence == 0)
  {
    hide Turn, Begin, Base, Store, Unique, Cut, Conflict, Acceptable;
  }

  lemma StoredOrderly<W(!new)>(g: Game<W>, env: Env, world: W, rows: map<nat, Row>, sessions: map<nat, Session>, req: Request, stored: map<nat, Row>)
    requires Admitted(g, env, world, rows, sessions, req) && Owned(g) && OwnOk(g, rows, env.now, env.users)
    requires stored == Store(rows, Closing(g, env, world, sessions, req).lane.sessions, req.id, env.now) && Unique(stored)
    ensures OwnOk(g, stored, env.now, env.users)
  {
    OwnRowsOk(g, rows, env.now, env.users);
    hide Store, Closing, Opening, Holds, Owns, Newest, StoredAt, RowsOk, Unique, Owned;
    forall j | j in stored
      ensures stored[j] == StoredAt(g, env, world, rows, sessions, req, j) && (j == req.id || j in rows)
      ensures Holds(g, env.users, stored[j]) && Owns(env.now, stored[j])
    {
      StoredIs(g, env, world, rows, sessions, req, j);
      StoredOwn(g, env, world, rows, sessions, req, j);
    }
    forall j, k | j in stored && k in stored
      ensures Newest(env.now, stored[j], stored[k])
    {
      NewestFor(g, env, world, rows, sessions, req, j, k);
    }
  }

  // Every committed dispatch keeps the table orderly.
  lemma ServeOwn<W(!new)>(g: Game<W>, env: Env, db: Database<W>, rows: map<nat, Row>, sessions: map<nat, Session>, req: Request)
    requires Loaded(rows, sessions, req) && Owned(g) && OwnOk(g, rows, env.now, env.users)
    requires forall j :: (j in rows && (Current(rows[j], env.now) || j == req.id)) <==> (j in sessions && j in rows)
    requires Serve(g, env, db, rows, sessions, req).Committed?
    ensures OwnOk(g, Serve(g, env, db, rows, sessions, req).db.rows, env.now, env.users)
  {
    ServedRows(g, env, db, rows, sessions, req);
    assert Admitted(g, env, db.world, rows, sessions, req) by {
      hide Serve, Store, Closing, Opening, Acceptable, OwnOk, Owned, Unique;
    }
    var stored := Serve(g, env, db, rows, sessions, req).db.rows;
    hide *;
    StoredOrderly(g, env, db.world, rows, sessions, req, stored);
  }

  lemma DispatchOwn<W(!new)>(g: Game<W>, env: Env, db: Database<W>, req: Request, clock: int, users: map<nat, User>)
    requires Owned(g) && OwnOk(g, db.rows, clock, users) && env.now >= clock && Advances(users, env.users)
    requires Dispatch(g, env, db, req).Committed?
    ensures OwnOk(g, Dispatch(g, env, db, req).db.rows, env.now, env.users)
  {
    hide Serve, OwnOk, Owned, Advances;
    SweptOwn(g, db.rows, clock, users, env.now, env.users);
    var rows := Sweep(db.rows, env.now);
    var sessions := Load(rows, req.id, env.now);
    var loaded := if req.id in sessions then sessions else sessions[req.id := NewSession(req.edge)];
    assert Loaded(rows, loaded, req);
    ServeOwn(g, env, db, rows, loaded, req);
  }

  // ---------------------------------------------------------------- whole runs

  // The users table the run has seen last.
  function UsersAfter(users: map<nat, User>, ls: seq<Label>): map<nat, User>
    decreases |ls|
  {
    if ls == [] then users else UsersAfter(if ls[0].Deliver? then ls[0].env.users else users, ls[1..])
  }

  // Credential versions only advance along the run.
  ghost predicate Advancing(users: map<nat, User>, ls: seq<Label>)
    decreases |ls|
  {
    ls != [] ==>
      if ls[0].Deliver? then Advances(users, ls[0].env.users) && Advancing(ls[0].env.users, ls[1..])
      else Advancing(users, ls[1..])
  }

  lemma StepOwn<W(!new)>(g: Game<W>, s: System<W>, l: Label, users: map<nat, User>)
    requires Owned(g) && OwnOk(g, s.db.rows, s.clock, users) && Enabled(s, l)
    requires s.term.req.id in s.term.written && s.term.req.id in s.term.script
    requires l.Deliver? ==> Advances(users, l.env.users)
    ensures OwnOk(g, After(g, s, l).db.rows, After(g, s, l).clock, if l.Deliver? then l.env.users else users)
  {
    hide Dispatch, Proceed, OwnOk, Owned, Advances, Extend;
    if l.Deliver? {
      if Dispatch(g, l.env, s.db, l.req).Committed? {
        DispatchOwn(g, l.env, s.db, l.req, s.clock, users);
      } else {
        SweptOwn(g, s.db.rows, s.clock, users, l.env.now, l.env.users);
      }
    }
  }

  lemma {:induction false} RunOwn<W(!new)>(g: Game<W>, s: System<W>, ls: seq<Label>, t: System<W>, users: map<nat, User>)
    requires Owned(g) && OwnOk(g, s.db.rows, s.clock, users) && Reaches(g, s, ls, t) && Advancing(users, ls)
    ensures OwnOk(g, t.db.rows, t.clock, UsersAfter(users, ls))
    decreases |ls|
  {
    hide Enabled, After, OwnOk, Owned, Advances;
    if ls != [] {
      StepOwn(g, s, ls[0], users);
      RunOwn(g, After(g, s, ls[0]), ls[1..], t, if ls[0].Deliver? then ls[0].env.users else users);
    }
  }

  lemma InitialOwn<W>(g: Game<W>, world: W, edge: nat, id: nat, users: map<nat, User>)
    ensures var s := Initial(world, edge, id); OwnOk(g, s.db.rows, s.clock, users)
  {
  }

  // Single ownership: in every reachable state no two live sessions play one character
  // and the owner column of open rows is injective, also after a stale session returns.
  lemma SingleOwnership<W(!new)>(g: Game<W>, world: W, edge: nat, id: nat, ls: seq<Label>, t: System<W>, users: map<nat, User>, i: nat, j: nat)
    requires Owned(g) && Reaches(g, Initial(world, edge, id), ls, t) && Advancing(users, ls)
    requires i in t.db.rows && j in t.db.rows && i != j && !t.db.rows[i].closed && !t.db.rows[j].closed
    ensures t.db.rows[i].character.Some? ==> t.db.rows[i].character != t.db.rows[j].character
    ensures var a, b := t.db.rows[i], t.db.rows[j];
            Current(a, t.clock) && Current(b, t.clock) && Playing(false, a.saved.conn) && Playing(false, b.saved.conn) ==>
              a.saved.conn.character != b.saved.conn.character
  {
    hide Reaches, Owned, Advancing;
    InitialOwn(g, world, edge, id, users);
    RunOwn(g, Initial(world, edge, id), ls, t, users);
    BothOpen(t.db.rows, i, j);
    assert Owns(t.clock, t.db.rows[i]) && Owns(t.clock, t.db.rows[j]);
  }
}
