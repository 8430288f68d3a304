// Which sessions a dispatch sees, keeps and ends: leases and tombstones, credentials and
// farewells, departures, and what of an answer reaches the socket.
module Leases {
  import opened Wrappers
  import opened Terminalwire
  import opened CoreSession
  import opened CoreDispatch
  import opened DispatchFacts
  import opened RowFacts
  import opened Failures
  import opened Acts
  import opened Edge
  import opened Protocol
  import opened Honest
  import opened Guarantees
  import opened Revocation
  import opened Messages
  import opened Replies

  const MINUTE := 60 * 1_000_000

  // ---------------------------------------------------------------- leases

  // A committed dispatch forgets exactly the rows not seen for a day, and renews the lease
  // of the requester alone. It does not touch other rows that are closed, or were last seen
  // two minutes ago, but for their claim on a character, which lapses.
  lemma RowsKept<W>(g: Game<W>, env: Env, db: Database<W>, req: Request, j: nat)
    requires RowsOk(db.rows) && Dispatch(g, env, db, req).Committed?
    ensures var r := Dispatch(g, env, db, req);
            && (j in r.db.rows <==> j == req.id || (j in db.rows && db.rows[j].lastSeen >= env.now - 24 * 60 * MINUTE))
            && (j in r.db.rows ==> r.db.rows[j].lastSeen == if j == req.id then env.now else db.rows[j].lastSeen)
            && (j in r.db.rows && j != req.id && (db.rows[j].closed || db.rows[j].lastSeen <= env.now - 2 * MINUTE) ==>
                  r.db.rows[j] == if db.rows[j].lastSeen < env.now - 2 * MINUTE then db.rows[j].(character := None) else db.rows[j])
  {
    hide Dispatch, Serve, Shape, CutOff, Grows, Unique, Closing;
    var rows := Sweep(db.rows, env.now);
    SweepOk(db.rows, env.now);
    DispatchStep(g, env, db, req);
    DispatchServes(g, env, db, req);
    ServeUnfold(g, env, db, rows, Sessions(rows, req, env.now), req);
  }

  // A request without a sequence, or with a line of more than 1024 characters, changes
  // nothing and gets no answer; one for a session unknown to the core is answered at once
  // unless it is its first: a close as closed, anything else with a reset.
  lemma StrangersAnswered<W>(g: Game<W>, env: Env, db: Database<W>, req: Request)
    ensures req.sequence == 0 || |req.line| > 1024 ==> Dispatch(g, env, db, req).Aborted?
    ensures req.id !in Sweep(db.rows, env.now) && 1 <= req.sequence && |req.line| <= 1024 && !env.fault
            && (req.kind != Open || req.sequence != 1) ==>
              Dispatch(g, env, db, req) == Answered(Response(req.sequence, [], req.kind == Close, req.kind != Close))
  {
    hide Serve, Sweep;
  }

  // ---------------------------------------------------------------- credentials

  // The credential names a user who may sign in, at the version the user has now.
  predicate Valid(users: map<nat, User>, c: Conn) {
    && c.credential.Some?
    && var (user, version) := (c.credential.value.user, c.credential.value.version);
       user in users && users[user].active && version == users[user].version >= 1
  }

  // A signed-in session runs a command only on a valid credential.
  lemma RunsUnderCredential<W>(g: Game<W>, env: Env, db: Database<W>, req: Request)
    requires RowsOk(db.rows) && Dispatch(g, env, db, req).Committed? && Dispatch(g, env, db, req).run.Some?
    requires req.id in Sweep(db.rows, env.now) && db.rows[req.id].saved.conn.phase in {Authenticated, InGame}
    ensures Valid(env.users, db.rows[req.id].saved.conn)
  {
    hide Dispatch, Shape;
    if Lapsed(env.users, db.rows[req.id].saved.conn) {
      RevokedDispatch(g, env, db, req);
    }
  }

  // ---------------------------------------------------------------- farewells

  // What is left in the outbox of a session that is cut off.
  function Farewell<W>(g: Game<W>, c: Checkpoint): seq<Output> {
    if |g.notice(Ended)| <= 64 * 1024 then [Output(c.nextOutput, g.notice(Ended))] else []
  }

  lemma RecheckParts<W>(g: Game<W>, users: map<nat, User>, s: Session)
    requires Revoked(users, s.saved)
    ensures var t := Recheck(g, users, s);
            t.saved.output == Farewell(g, t.saved) && t.saved.closed && t.dirty
  {
    assert Size([]) == 0;
  }

  lemma FarewellBegins<W>(g: Game<W>, env: Env, rows: map<nat, Row>, sessions: map<nat, Session>, req: Request, world: W, j: nat)
    requires Loaded(rows, sessions, req) && j in Cut(env.users, sessions, req)
    ensures var lane := Opening(g, env, world, sessions, req);
            var s := lane.sessions[j];
            s.saved.output == Farewell(g, s.saved) && s.saved.closed && s.dirty && j !in lane.players
            && s.saved.conn == sessions[j].saved.conn
  {
    var s0 := if j == req.id then Acknowledge(Hangup(sessions[j], req), req.ack) else sessions[j];
    assert Revoked(env.users, s0.saved);
    RecheckParts(g, env.users, s0);
    WriteFacts();
    hide Farewell, Trim;
  }

  lemma CutKept<W>(g: Game<W>, env: Env, rows: map<nat, Row>, sessions: map<nat, Session>, req: Request, world: W, j: nat)
    requires Loaded(rows, sessions, req) && RowsOk(rows) && j in Cut(env.users, sessions, req)
    requires Closing(g, env, world, sessions, req).outcome != Some(Failed)
    ensures var t := Closing(g, env, world, sessions, req);
            var stored := Store(rows, t.lane.sessions, req.id, env.now);
            j in stored && stored[j].closed && stored[j].saved.output == Farewell(g, stored[j].saved)
  {
    FarewellBegins(g, env, rows, sessions, req, world, j);
    AllRestored(g, env, rows, sessions, req, world);
    OpeningActs(g, env, world, sessions, req);
    ClosingTurned(g, env, rows, sessions, req, world);
    var lane := Opening(g, env, world, sessions, req);
    hide Opening, Turn, Shape, Cut, Words, Farewell, Restored, Grows;
    if j != req.id {
      TurnHeard(g, env, lane, req, sessions[req.id].saved.closed, j);
    }
    FarewellSaved(g, Closing(g, env, world, sessions, req).lane.sessions[j], env.now);
  }

  lemma FarewellSaved<W>(g: Game<W>, s: Session, now: int)
    requires s.saved.output == Farewell(g, s.saved)
    ensures SaveRow(s, now).saved.output == Farewell(g, SaveRow(s, now).saved)
  {
  }

  lemma CutWho(users: map<nat, User>, rows: map<nat, Row>, sessions: map<nat, Session>, req: Request, j: nat)
    requires Loaded(rows, sessions, req) && RowsOk(rows) && j in Cut(users, sessions, req)
    ensures j in rows && !rows[j].closed && rows[j].saved.conn.phase in {Authenticated, InGame} && !Valid(users, rows[j].saved.conn)
  {
    hide Shape;
    StartOk(rows, req);
  }

  // A session is cut off only if it was signed in on a credential that is not valid, and of
  // everything pending the notice that its sign-in has ended is all that is left.
  lemma CutSays<W>(g: Game<W>, env: Env, db: Database<W>, req: Request, j: nat)
    requires RowsOk(db.rows) && Dispatch(g, env, db, req).Committed? && j in Dispatch(g, env, db, req).cut
    ensures var r := Dispatch(g, env, db, req);
            && j in db.rows && !db.rows[j].closed && db.rows[j].saved.conn.phase in {Authenticated, InGame}
            && !Valid(env.users, db.rows[j].saved.conn)
            && j in r.db.rows && r.db.rows[j].closed && r.db.rows[j].saved.output == Farewell(g, r.db.rows[j].saved)
  {
    hide Dispatch, Serve, Shape, Farewell, Sessions, Closing, Store, Cut, Acceptable, Loaded, Valid, RowsOk;
    var rows := Sweep(db.rows, env.now);
    var sessions := Sessions(rows, req, env.now);
    SweepOk(db.rows, env.now);
    DispatchServes(g, env, db, req);
    ServeUnfold(g, env, db, rows, sessions, req);
    CutWho(env.users, rows, sessions, req, j);
    CutKept(g, env, rows, sessions, req, db.world, j);
  }

  // ---------------------------------------------------------------- departures

  // The command ended with a look at the room that only takes note of it.
  predicate Noted(acts: seq<Act>) {
    acts != [] && acts[|acts| - 1].Look? && !acts[|acts| - 1].notify
  }

  // In a committed dispatch the requester departs exactly when its session, open before and
  // closed now, was in the game, its character was not taken over, and it was closed before
  // the last look at its room: by its recheck, its hangup, its command, or the outputs of it.
  // A session that closes because that last report does not fit leaves unannounced.
  lemma DepartsExactly<W>(g: Game<W>, env: Env, db: Database<W>, req: Request)
    requires RowsOk(db.rows) && Dispatch(g, env, db, req).Committed?
    ensures var r := Dispatch(g, env, db, req);
            var start := Start(Sweep(db.rows, env.now), req);
            req.id in r.db.rows &&
            (r.departed <==>
              && !start.closed && r.db.rows[req.id].closed
              && start.saved.conn.phase == InGame && start.saved.conn.character.Some?
              && if r.run.Some? then
                   && r.run.value.from == InGame
                   && (r.run.value.outcome == Quit || (req.kind != Poll && !Noted(r.run.value.acts)))
                 else r.db.rows[req.id].saved.conn.phase == InGame)
  {
    hide Dispatch, Serve, Shape, Sessions, Closing, Cut, Acceptable, Loaded, RowsOk, Sweep, Start, Noted, Opening;
    var rows := Sweep(db.rows, env.now);
    var sessions := Sessions(rows, req, env.now);
    SweepOk(db.rows, env.now);
    DispatchServes(g, env, db, req);
    ServeUnfold(g, env, db, rows, sessions, req);
    ServeRecord(g, env, db, rows, sessions, req);
    RecordOf(g, env, db, rows, sessions, req);
    RequesterDirty(g, env, rows, sessions, req, db.world);
    DepartsWhen(g, env, rows, sessions, req, db.world);
  }

  lemma DepartsWhen<W>(g: Game<W>, env: Env, rows: map<nat, Row>, sessions: map<nat, Session>, req: Request, world: W)
    requires Loaded(rows, sessions, req) && RowsOk(rows)
    ensures var start := Start(rows, req);
            var s, t := OpeningSession(g, env, world, sessions, req), Closing(g, env, world, sessions, req);
            var f := t.lane.sessions[req.id];
            t.departed <==>
              && !start.closed && f.saved.closed
              && start.saved.conn.phase == InGame && start.saved.conn.character.Some?
              && if t.outcome.Some? then
                   s.conn.phase == InGame && (t.outcome == Some(Quit) || (req.kind != Poll && !Noted(t.lane.acts)))
                 else f.conn.phase == InGame
  {
    StartOk(rows, req);
    OpeningConn(g, env, world, rows, sessions, req);
    OpeningActs(g, env, world, sessions, req);
    ClosingTurned(g, env, rows, sessions, req, world);
    hide Opening, Turn, Active, Shape, Turned1, Noted;
    var lane := Opening(g, env, world, sessions, req);
    if IsFresh(lane.sessions[req.id], req.sequence) {
      CheckedOpening(g, env, world, rows, sessions, req);
    }
    TurnDeparts(g, env, lane, req, sessions[req.id].saved.closed);
  }

  lemma CheckedOpening<W>(g: Game<W>, env: Env, world: W, rows: map<nat, Row>, sessions: map<nat, Session>, req: Request)
    requires Loaded(rows, sessions, req) && !OpeningSession(g, env, world, sessions, req).saved.closed
    ensures Checked(env.users, OpeningSession(g, env, world, sessions, req))
  {
    OpeningConn(g, env, world, rows, sessions, req);
    hide Opening, Active;
  }

  lemma ExecuteNotes<W>(g: Game<W>, env: Env, lane: Lane<W>, req: Request)
    requires req.id in lane.sessions && lane.acts == [] && Checked(env.users, lane.sessions[req.id])
    requires lane.sessions[req.id].conn.phase.InGame? && !lane.sessions[req.id].saved.closed
    ensures var (ran, outcome) := Execute(g, env, lane, req, true);
            && (req.kind != Poll ==> !Noted(ran.acts))
            && (req.kind == Poll ==> outcome == Done && !ran.sessions[req.id].saved.closed)
            && (outcome == Quit ==> ran.sessions[req.id].saved.closed)
  {
    var pre, mid := ExecuteActs(g, env, lane, req, true);
    if req.kind == Poll {
      PollExecutes(g, env, lane, req);
    }
    hide Execute, Active, Noted, Checked, Glance, Deed;
    ActsNoted(Acts.Ran(req, lane.sessions[req.id].conn.phase, Execute(g, env, lane, req, true).1, []), pre, mid);
  }

  lemma ActsNoted(run: Run, pre: seq<Act>, mid: seq<Act>)
    requires Glance(pre, true) && Deed(run, mid)
    ensures !Noted(pre + mid)
  {
    if mid != [] {
      assert (pre + mid)[|pre + mid| - 1] == mid[|mid| - 1];
    } else {
      assert pre + mid == pre;
    }
  }

  lemma PollExecutes<W>(g: Game<W>, env: Env, lane: Lane<W>, req: Request)
    requires req.id in lane.sessions && req.kind == Poll && lane.sessions[req.id].conn.phase.InGame?
    ensures var (ran, outcome) := Execute(g, env, lane, req, true);
            outcome == Done && ran.sessions[req.id].saved.closed == lane.sessions[req.id].saved.closed
  {
    hide CheckAuthentication, StartSignIn, ProcessInput, Observe, RollBack, Retire;
  }

  lemma LookNotes<W>(g: Game<W>, lane: Lane<W>, id: nat, poll: bool)
    requires id in lane.sessions && !lane.sessions[id].saved.closed
    ensures var seen := LookAround(g, lane, id, poll);
            seen.sessions[id].saved.closed ==> poll || Noted(seen.acts)
  {
    hide WriteAll;
  }

  lemma TurnDeparts<W>(g: Game<W>, env: Env, lane: Lane<W>, req: Request, wasClosed: bool)
    requires req.id in lane.sessions && lane.acts == []
    requires IsFresh(lane.sessions[req.id], req.sequence) ==> Checked(env.users, lane.sessions[req.id])
    ensures var c, t := lane.sessions[req.id].conn, Turn(g, env, lane, req, wasClosed);
            t.departed <==>
              && !wasClosed && t.lane.sessions[req.id].saved.closed && c.phase == InGame && c.character.Some?
              && (t.outcome.Some? ==> t.outcome == Some(Quit) || (req.kind != Poll && !Noted(t.lane.acts)))
  {
    hide Execute, Depart, Observe, Checked, Noted;
    var id := req.id;
    var c := lane.sessions[id].conn;
    var who := if c.character.Some? then c.character.value else 0;
    var wasPlaying := c.phase.InGame? && c.character.Some?;
    if IsFresh(lane.sessions[id], req.sequence) && wasPlaying {
      var (ran, outcome) := Execute(g, env, lane, req, wasPlaying);
      ExecuteNotes(g, env, lane, req);
      DepartActs(g, ran, id, who);
      if ran.sessions[id].saved.closed {
      } else {
        LookNotes(g, ran, id, req.kind == Poll);
      }
    } else {
      DepartActs(g, lane, id, who);
    }
  }

  lemma OverAnnounced<W>(g: Game<W>, s: System<W>, l: Label, j: nat)
    requires Inv(s) && Enabled(s, l) && s.term.req.id in s.term.written && s.term.req.id in s.term.script && Over(s, j)
    ensures j in After(g, s, l).departed <==> j in s.departed
  {
    hide Dispatch, SessionsOk, HonestOk, Proceed, Runs, Extend, Sweep, Over;
    if l.Deliver? && Dispatch(g, l.env, s.db, l.req).Committed? {
      SweptRows(s, l.env.now);
      DispatchStep(g, l.env, s.db, l.req);
      CommitsCurrent(g, s, l.req, l.env);
      OverCommit(s, l.req, l.env, Dispatch(g, l.env, s.db, l.req), j);
    }
  }

  // What was not announced when a session ended is never announced: over any run, the
  // departures of sessions that are over stay what they are.
  lemma {:induction false} NeverAnnounced<W>(g: Game<W>, s: System<W>, ls: seq<Label>, t: System<W>, j: nat)
    requires Inv(s) && Reaches(g, s, ls, t) && Over(s, j)
    ensures j in t.departed <==> j in s.departed
    decreases |ls|
  {
    hide Inv, Enabled, After, Over;
    if ls != [] {
      StepInv(g, s, ls[0]);
      OverStep(g, s, ls[0], j);
      OverAnnounced(g, s, ls[0], j);
      NeverAnnounced(g, After(g, s, ls[0]), ls[1..], t, j);
    }
  }

  // ---------------------------------------------------------------- the socket

  // The outputs above an ID, in order.
  function Above(outs: seq<Output>, ack: nat): seq<Output> {
    if outs == [] then [] else (if outs[0].id > ack then [outs[0]] else []) + Above(outs[1..], ack)
  }

  lemma {:induction false} AllAbove(outs: seq<Output>, ack: nat)
    requires forall o :: o in outs ==> o.id > ack
    ensures Above(outs, ack) == outs
  {
    if outs != [] {
      assert outs[0] in outs;
      AllAbove(outs[1..], ack);
    }
  }

  // What the socket has seen of the session the terminal serves.
  function Socket(t: Terminal): seq<Output> {
    if t.req.id in t.written then t.written[t.req.id] else []
  }

  // One output: skipped, or written and acknowledged.
  lemma ReceiveOne(t: Terminal, outs: seq<Output>) returns (u: Terminal)
    requires t.req.id in t.written && outs != []
    ensures u.req.id in u.written && Receive(t, outs) == Receive(u, outs[1..])
    ensures if outs[0].id <= t.req.ack then u == t else Socket(u) == Socket(t) + [outs[0]] && u.req.ack == outs[0].id
  {
    u := if outs[0].id <= t.req.ack then t
         else t.(written := t.written[t.req.id := t.written[t.req.id] + [outs[0]]], req := t.req.(ack := outs[0].id));
  }

  // Of any answer with ascending IDs, whatever was written before, the socket gets exactly
  // the outputs above the last acknowledgement.
  lemma {:induction false} WritesAbove(t: Terminal, outs: seq<Output>)
    requires t.req.id in t.written && Ascending(outs)
    ensures Socket(Receive(t, outs)) == Socket(t) + Above(outs, t.req.ack)
    decreases |outs|
  {
    if outs == [] {
      assert Socket(t) + [] == Socket(t);
    } else {
      hide Receive, Socket;
      AboveNext(outs, t.req.ack);
      LaterIds(outs);
      hide Ascending, Above;
      var u := ReceiveOne(t, outs);
      WritesAbove(u, outs[1..]);
      if outs[0].id > t.req.ack {
        AllAbove(outs[1..], outs[0].id);
        Rejoin(Socket(t), outs);
      }
    }
  }

  lemma Rejoin(a: seq<Output>, b: seq<Output>)
    requires b != []
    ensures a + [b[0]] + b[1..] == a + b
  {
  }

  lemma AboveNext(outs: seq<Output>, ack: nat)
    requires outs != [] && Ascending(outs)
    ensures Above(outs, ack) == if outs[0].id > ack then outs else Above(outs[1..], ack)
  {
    if outs[0].id > ack {
      LaterIds(outs);
      AllAbove(outs, ack);
    } else {
      assert [] + Above(outs[1..], ack) == Above(outs[1..], ack);
    }
  }

  // Of an answer in any reachable state every output is new to the socket: the terminal
  // writes all of them, in order, or those before its socket broke, and acknowledges them.
  lemma SocketGets<W>(g: Game<W>, world: W, edge: nat, id: nat, ls: seq<Label>, t: System<W>,
                     p: Response, next: Next, newId: nat, broken: Option<nat>)
    requires Reaches(g, Initial(world, edge, id), ls, t)
    requires !t.term.done && p in t.replies && !p.reset && t.term.req.id in t.term.written && t.term.req.id in t.term.script
    ensures var n := if broken.Some? && broken.value <= |p.output| then broken.value else |p.output|;
            var u := Proceed(t.term, p, next, newId, broken);
            && u.req.id == t.term.req.id && u.written == t.term.written[u.req.id := t.term.written[u.req.id] + p.output[..n]]
            && u.req.ack == LastId(u.written[u.req.id])
  {
    InitialInv(world, edge, id);
    RunInv(g, Initial(world, edge, id), ls, t);
    hide Reaches, Receive, WrittenOk, Lock, ScriptOk, Sent;
    var n := if broken.Some? && broken.value <= |p.output| then broken.value else |p.output|;
    assert AnsweredAt(t, p) && p.output[..|p.output|] == p.output;
    ReceivedWritten(t, p, n);
    AckIsLast(t.term);
    ReceiveAppends(t.term, p.output[..n]);
  }
}
