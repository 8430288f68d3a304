// Commands that fail and sessions whose credential was revoked.
module Failures {
  import opened Wrappers
  import opened Terminalwire
  import opened CoreSession
  import opened CoreDispatch
  import opened DispatchFacts
  import opened RowFacts

  // ---------------------------------------------------------------- failed commands

  // Lanes that differ at most in how the hub lists the requester.
  ghost predicate SameLane<W>(a: Lane<W>, b: Lane<W>, id: nat) {
    a.sessions == b.sessions && a.world == b.world && a.acts == b.acts && a.players - {id} == b.players - {id}
  }

  lemma PerformPlayers<W>(g: Game<W>, env: Env, lane: Lane<W>, req: Request)
    requires req.id in lane.sessions
    ensures Perform(g, env, lane, req).0.players - {req.id} == lane.players - {req.id}
  {
    PerformSteps(g, env, lane, req);
    hide Perform;
    var p := Perform(g, env, lane, req).0.players;
    assert p - {req.id} == (p + {req.id}) - {req.id};
    assert lane.players - {req.id} == (lane.players + {req.id}) - {req.id};
  }

  lemma FailedExecute<W>(g: Game<W>, h: Game<W>, env: Env, other: Env, lane: Lane<W>, req: Request, wasPlaying: bool)
    requires req.id in lane.sessions && g.notice == h.notice && g.observe == h.observe
    requires Execute(g, env, lane, req, wasPlaying).1 == Failed == Execute(h, other, lane, req, wasPlaying).1
    ensures SameLane(Execute(g, env, lane, req, wasPlaying).0, Execute(h, other, lane, req, wasPlaying).0, req.id)
  {
    hide Perform, CaptureAll;
    assert Observe(g, lane, req.id, true) == Observe(h, lane, req.id, true);
    hide Observe;
    var before := CaptureAll(if req.kind == Input && wasPlaying then Observe(g, lane, req.id, true) else lane);
    PerformPlayers(g, env, before, req);
    PerformPlayers(h, other, before, req);
  }

  lemma SameAfter<W>(g: Game<W>, h: Game<W>, a: Lane<W>, b: Lane<W>, id: nat, character: nat, poll: bool)
    requires SameLane(a, b, id) && g.notice == h.notice && g.observe == h.observe && id in a.sessions
    ensures SameLane(Depart(g, a, id, character), Depart(h, b, id, character), id)
    ensures SameLane(LookAround(g, a, id, poll), LookAround(h, b, id, poll), id)
  {
  }

  // A failed command leaves no trace of what it did: whatever two games do in it, as
  // long as both fail, the turn ends with the same world and the same sessions.
  lemma FailureLeavesNoTrace<W>(g: Game<W>, h: Game<W>, env: Env, other: Env, lane: Lane<W>, req: Request, wasClosed: bool)
    requires req.id in lane.sessions && g.notice == h.notice && g.observe == h.observe
    ensures var t, u := Turn(g, env, lane, req, wasClosed), Turn(h, other, lane, req, wasClosed);
            t.outcome == Some(Failed) == u.outcome ==> SameLane(t.lane, u.lane, req.id) && t.departed == u.departed
  {
    hide Turn;
    if Turn(g, env, lane, req, wasClosed).outcome == Some(Failed) == Turn(h, other, lane, req, wasClosed).outcome {
      FailedTurns(g, h, env, other, lane, req, wasClosed);
    }
  }

  lemma FailedTurns<W>(g: Game<W>, h: Game<W>, env: Env, other: Env, lane: Lane<W>, req: Request, wasClosed: bool)
    requires req.id in lane.sessions && g.notice == h.notice && g.observe == h.observe
    requires Turn(g, env, lane, req, wasClosed).outcome == Some(Failed) == Turn(h, other, lane, req, wasClosed).outcome
    ensures SameLane(Turn(g, env, lane, req, wasClosed).lane, Turn(h, other, lane, req, wasClosed).lane, req.id)
    ensures Turn(g, env, lane, req, wasClosed).departed == Turn(h, other, lane, req, wasClosed).departed
  {
    hide Execute, Depart, LookAround;
    var id := req.id;
    var c := lane.sessions[id].conn;
    var wasPlaying := c.phase.InGame? && c.character.Some?;
    FailedExecute(g, h, env, other, lane, req, wasPlaying);
    var a, b := Execute(g, env, lane, req, wasPlaying).0, Execute(h, other, lane, req, wasPlaying).0;
    var departs := !wasClosed && a.sessions[id].saved.closed && wasPlaying;
    var who := if c.character.Some? then c.character.value else 0;
    SameAfter(g, h, a, b, id, who, req.kind == Poll);
    if departs {
      SameAfter(g, h, Depart(g, a, id, who), Depart(h, b, id, who), id, who, req.kind == Poll);
    }
  }

  // What the failed command leaves of the requester: its connection as it was and only
  // room observations of the world.
  lemma FailedRequester<W>(g: Game<W>, env: Env, lane: Lane<W>, req: Request, wasPlaying: bool)
    requires req.id in lane.sessions && lane.acts == []
    requires Execute(g, env, lane, req, wasPlaying).1 == Failed
    ensures var r := Execute(g, env, lane, req, wasPlaying).0;
            && r.sessions[req.id].conn == lane.sessions[req.id].conn
            && (forall k :: 0 <= k < |r.acts| ==> r.acts[k].Look?)
  {
    hide Perform;
    var seen := if req.kind == Input && wasPlaying then Observe(g, lane, req.id, true) else lane;
    ObserveSteps(g, lane, req.id, true);
    var before := CaptureAll(seen);
    var undone := RollBack(before, Perform(g, env, before, req).0.players, req.id);
    TellSteps(undone, req.id, [g.notice(Refused)]);
  }

  // The one thing a failed command may still do to others: refusing it does not fit the
  // outbox of a player, so its session closes and the other players hear it leave. All of
  // it is known before the command runs.
  ghost predicate Overflows<W>(g: Game<W>, lane: Lane<W>, req: Request)
    requires req.id in lane.sessions
  {
    var s := lane.sessions[req.id];
    s.conn.phase.InGame? && s.conn.character.Some? &&
    var seen := if req.kind == Input then Observe(g, lane, req.id, true).sessions[req.id] else s;
    seen.saved.closed || |g.notice(Refused)| + Size(seen.saved.output) > OUTBOX_LIMIT
  }

  lemma SeenBefore<W>(g: Game<W>, lane: Lane<W>, id: nat, looks: bool, j: nat)
    requires id in lane.sessions && Restored(lane.sessions, id)
    ensures var seen := if looks then Observe(g, lane, id, true) else lane;
            var before := CaptureAll(seen);
            && before.players == lane.players
            && before.sessions[id].saved == seen.sessions[id].saved.(conn := lane.sessions[id].conn)
            && (j in lane.sessions && j != id ==> before.sessions[j] == lane.sessions[j])
  {
    if looks {
      ObserveSteps(g, lane, id, true);
      hide Grows;
    }
  }

  lemma RollBackTells<W>(g: Game<W>, before: Lane<W>, players: set<nat>, id: nat, j: nat)
    requires id in before.sessions
    ensures var r := Tell(RollBack(before, players, id), id, [g.notice(Refused)]);
            var c := before.sessions[id].saved;
            && r.players == players
            && (j in before.sessions && j != id ==>
                  r.sessions[j] == before.sessions[j].(conn := before.sessions[j].saved.conn, dirty := false))
            && (r.sessions[id].saved.closed <==> c.closed || |g.notice(Refused)| + Size(c.output) > OUTBOX_LIMIT)
  {
    hide WriteAll, Size;
    WriteOne(RollBack(before, players, id).sessions[id], g.notice(Refused));
  }

  lemma RolledBack<W>(g: Game<W>, env: Env, lane: Lane<W>, req: Request, wasPlaying: bool, j: nat)
    requires req.id in lane.sessions && Restored(lane.sessions, req.id)
    requires Execute(g, env, lane, req, wasPlaying).1 == Failed
    ensures var r := Execute(g, env, lane, req, wasPlaying).0;
            var seen := if req.kind == Input && wasPlaying then Observe(g, lane, req.id, true).sessions[req.id]
                        else lane.sessions[req.id];
            && (j in lane.sessions && j != req.id ==> r.sessions[j] == lane.sessions[j].(dirty := false))
            && r.players - {req.id} == lane.players - {req.id}
            && (r.sessions[req.id].saved.closed <==>
                  seen.saved.closed || |g.notice(Refused)| + Size(seen.saved.output) > OUTBOX_LIMIT)
  {
    hide Perform, Observe, CaptureAll, RollBack, Tell, Size;
    var looks := req.kind == Input && wasPlaying;
    var before := CaptureAll(if looks then Observe(g, lane, req.id, true) else lane);
    SeenBefore(g, lane, req.id, looks, j);
    PerformPlayers(g, env, before, req);
    RollBackTells(g, before, Perform(g, env, before, req).0.players, req.id, j);
  }

  lemma WriteOne(s: Session, data: string)
    ensures WriteAll(s, [data]) == Write(s, data)
  {
    assert [data][..0] == [];
    assert WriteAll(s, []) == s;
  }

  // What a failed command leaves of every other session, and when a departure follows it.
  lemma FailedTurn<W>(g: Game<W>, env: Env, lane: Lane<W>, req: Request, j: nat)
    requires req.id in lane.sessions && Restored(lane.sessions, req.id)
    requires Turn(g, env, lane, req, false).outcome == Some(Failed)
    ensures var t := Turn(g, env, lane, req, false);
            && (t.departed <==> Overflows(g, lane, req))
            && (j in lane.sessions && j != req.id ==>
                  var s := lane.sessions[j].(dirty := false);
                  t.lane.sessions[j] == if Overflows(g, lane, req) && j in lane.players
                                        then Write(s, g.notice(Left(lane.sessions[req.id].conn.character.value))) else s)
  {
    hide Execute, LookAround, Observe, Write;
    var c := lane.sessions[req.id].conn;
    var wasPlaying := c.phase.InGame? && c.character.Some?;
    RolledBack(g, env, lane, req, wasPlaying, j);
    var ran := Execute(g, env, lane, req, wasPlaying).0;
    assert j != req.id ==> (j in ran.players - {req.id} <==> j in lane.players - {req.id});
    var told := if Overflows(g, lane, req) then Depart(g, ran, req.id, c.character.value) else ran;
    LooksAtItself(g, told, req.id, req.kind == Poll, j);
  }

  lemma LooksAtItself<W>(g: Game<W>, lane: Lane<W>, id: nat, poll: bool, j: nat)
    requires id in lane.sessions
    ensures j in lane.sessions && j != id ==> LookAround(g, lane, id, poll).sessions[j] == lane.sessions[j]
  {
  }

  // The row of a player who hears of a departure.
  function Told<W>(g: Game<W>, r: Row, character: nat): Row {
    SaveRow(Write(LoadRow(r), g.notice(Left(character))), r.lastSeen)
  }

  lemma ToldDiffers<W>(g: Game<W>, r: Row, character: nat)
    requires RowOk(r) && !r.closed
    ensures Told(g, r, character) != r
  {
  }

  lemma OpeningPlayers<W>(g: Game<W>, env: Env, world: W, rows: map<nat, Row>, sessions: map<nat, Session>, req: Request, j: nat)
    requires Loaded(rows, sessions, req) && RowsOk(rows) && j != req.id
    ensures j in Opening(g, env, world, sessions, req).players ==>
              j in sessions && !rows[j].closed && j !in Cut(env.users, sessions, req)
  {
    hide Base, Shape, Cut, Admit;
    if j in sessions {
      assert RowOk(rows[j]);
      BystanderBegins(g, env, rows, sessions, req, world, j);
    }
  }

  // A failed command is atomic in the stored rows. Every other session keeps its row
  // exactly, revoked ones included, unless refusing the command overflows the requester:
  // then the other players, and nobody else, are told that it left.
  lemma FailedCommandIsAtomic<W>(g: Game<W>, env: Env, rows: map<nat, Row>, sessions: map<nat, Session>, req: Request, world: W, j: nat)
    requires Loaded(rows, sessions, req) && RowsOk(rows) && j in rows && j != req.id
    requires Closing(g, env, world, sessions, req).outcome == Some(Failed)
    ensures var lane := Opening(g, env, world, sessions, req);
            var t := Closing(g, env, world, sessions, req);
            var heard := Overflows(g, lane, req) && j in lane.players;
            var stored := Store(rows, t.lane.sessions, req.id, env.now);
            && (t.departed <==> Overflows(g, lane, req))
            && (stored[j] == rows[j] <==> !heard)
            && (heard ==> stored[j] == Told(g, rows[j], lane.sessions[req.id].conn.character.value))
  {
    hide Turn, Begin, Base, Shape, Cut, Overflows, SaveRow;
    var lane := Opening(g, env, world, sessions, req);
    FailedOpens(g, env, rows, sessions, req, world);
    FailedTurn(g, env, lane, req, j);
    OpeningPlayers(g, env, world, rows, sessions, req, j);
    if j in sessions {
      BystanderBegins(g, env, rows, sessions, req, world, j);
      if j in lane.players {
        assert lane.sessions[j].(dirty := false) == LoadRow(rows[j]);
        if Overflows(g, lane, req) {
          OverflowPlays(g, lane, req);
          WriteDirty(LoadRow(rows[j]), g.notice(Left(lane.sessions[req.id].conn.character.value)));
          ToldDiffers(g, rows[j], lane.sessions[req.id].conn.character.value);
        }
      }
    }
  }

  lemma OverflowPlays<W>(g: Game<W>, lane: Lane<W>, req: Request)
    requires req.id in lane.sessions && Overflows(g, lane, req)
    ensures lane.sessions[req.id].conn.character.Some?
  {
  }

  lemma WriteDirty(s: Session, data: string)
    ensures Write(s, data).dirty
  {
  }

  // Only a session that was open runs a command, and all others are restored before it.
  lemma FailedOpens<W>(g: Game<W>, env: Env, rows: map<nat, Row>, sessions: map<nat, Session>, req: Request, world: W)
    requires Loaded(rows, sessions, req) && RowsOk(rows)
    requires Closing(g, env, world, sessions, req).outcome.Some?
    ensures !sessions[req.id].saved.closed && Restored(Opening(g, env, world, sessions, req).sessions, req.id)
  {
    hide Turn, Begin, Base, Shape, Cut;
    ClosingTurned(g, env, rows, sessions, req, world);
    OpeningConn(g, env, world, rows, sessions, req);
    var lane := Opening(g, env, world, sessions, req);
    forall j | j in lane.sessions && j != req.id
      ensures lane.sessions[j].conn == lane.sessions[j].saved.conn
    {
      BystanderBegins(g, env, rows, sessions, req, world, j);
    }
  }

  // The same for what a dispatch commits, by the outcome it records.
  lemma FailedDispatch<W>(g: Game<W>, env: Env, db: Database<W>, req: Request, j: nat)
    requires RowsOk(db.rows) && j in Sweep(db.rows, env.now) && j != req.id
    ensures var r := Dispatch(g, env, db, req);
            var rows := Sweep(db.rows, env.now);
            r.Committed? && r.run.Some? && r.run.value.outcome == Failed ==>
              var lane := Opening(g, env, db.world, Sessions(rows, req, env.now), req);
              j in r.db.rows && (r.db.rows[j] == rows[j] <==> !(Overflows(g, lane, req) && j in lane.players))
  {
    hide Dispatch, Serve, Overflows, Opening, Sessions, Sweep;
    DispatchServes(g, env, db, req);
    var rows := Sweep(db.rows, env.now);
    var sessions := Sessions(rows, req, env.now);
    SweepOk(db.rows, env.now);
    if Dispatch(g, env, db, req).Committed? {
      ServeUnfold(g, env, db, rows, sessions, req);
      if Closing(g, env, db.world, sessions, req).outcome == Some(Failed) {
        FailedCommandIsAtomic(g, env, rows, sessions, req, db.world, j);
      }
    }
  }

  lemma SweepOk(rows: map<nat, Row>, now: int)
    requires RowsOk(rows)
    ensures RowsOk(Sweep(rows, now))
  {
    hide Shape;
  }

  lemma ServeUnfold<W>(g: Game<W>, env: Env, db: Database<W>, rows: map<nat, Row>, sessions: map<nat, Session>, req: Request)
    requires Loaded(rows, sessions, req) && Serve(g, env, db, rows, sessions, req).Committed?
    ensures var r := Serve(g, env, db, rows, sessions, req);
            var t := Closing(g, env, db.world, sessions, req);
            && Acceptable(sessions[req.id], req)
            && r.db == Database(Store(rows, t.lane.sessions, req.id, env.now), t.lane.world)
            && (r.run.Some? <==> t.outcome.Some?) && (r.run.Some? ==> t.outcome == Some(r.run.value.outcome))
            && r.cut == (if t.outcome == Some(Failed) then {} else Cut(env.users, sessions, req))
  {
    hide Turn, Begin, Base, Store, Unique, Cut, Conflict, Acceptable;
  }

  // ---------------------------------------------------------------- revocation

  // Signed in with a credential that no longer holds.
  predicate Lapsed(users: map<nat, User>, c: Conn) {
    SignedIn(c) && (c.credential.None? || !Active(users, c.credential.value))
  }

  lemma GrownOld(c: Checkpoint, d: Checkpoint)
    requires Shape(c) && Grows(c, d)
    ensures (exists o :: o in d.output && o.id <= c.nextOutput) <==> c.output != []
  {
    if c.output != [] {
      assert d.output[0] == c.output[0];
      assert d.output[0] in d.output && d.output[0].id <= c.nextOutput;
    }
  }

  // The guard of the exception, in the order the dispatch checks: a closed session, or
  // a close request, is not rechecked.
  predicate Unchecked(r: Row, req: Request) {
    r.closed || req.kind == Close
  }

  // Once the credential of a session is revoked, no dispatch of its requests runs a
  // command, the session ends closed, and the reply holds output older than the
  // revocation exactly when the recheck is skipped and such output is still pending.
  lemma RevokedSession<W>(g: Game<W>, env: Env, db: Database<W>, rows: map<nat, Row>, sessions: map<nat, Session>, req: Request)
    requires Loaded(rows, sessions, req) && RowsOk(rows) && Lapsed(env.users, Start(rows, req).saved.conn)
    ensures var r := Serve(g, env, db, rows, sessions, req);
            var start := Start(rows, req);
            r.Committed? ==>
              && r.run.None? && r.reply.closed && req.id in r.db.rows && r.db.rows[req.id].closed
              && ((exists o :: o in r.reply.output && o.id <= start.saved.nextOutput) <==>
                  Unchecked(start, req) && Trim(start.saved.output, req.ack) != [])
  {
    hide Serve, Trim, RowsOk;
    if Serve(g, env, db, rows, sessions, req).Committed? {
      RevokedServe(g, env, db, rows, sessions, req);
    }
  }

  lemma RevokedServe<W>(g: Game<W>, env: Env, db: Database<W>, rows: map<nat, Row>, sessions: map<nat, Session>, req: Request)
    requires Loaded(rows, sessions, req) && RowsOk(rows) && Lapsed(env.users, Start(rows, req).saved.conn)
    requires Serve(g, env, db, rows, sessions, req).Committed?
    ensures var r := Serve(g, env, db, rows, sessions, req);
            var start := Start(rows, req);
            && r.run.None? && r.reply.closed && req.id in r.db.rows && r.db.rows[req.id].closed
            && ((exists o :: o in r.reply.output && o.id <= start.saved.nextOutput) <==>
                Unchecked(start, req) && Trim(start.saved.output, req.ack) != [])
  {
    hide Base, Begin, Turn, Unique, Store, KeptRow, CutRow;
    var r := Serve(g, env, db, rows, sessions, req);
    var start := Start(rows, req);
    ServeStep(g, env, db, rows, sessions, req);
    StartOk(rows, req);
    CutIff(env.users, rows, sessions, req);
    ClosingTurned(g, env, rows, sessions, req, db.world);
    RequesterBegins(g, env, rows, sessions, req, db.world);
    RevokedRow(req, env.now, start, r.db.rows[req.id], r.run, req.id in r.cut);
  }

  lemma CutIff(users: map<nat, User>, rows: map<nat, Row>, sessions: map<nat, Session>, req: Request)
    requires Loaded(rows, sessions, req) && RowOk(Start(rows, req)) && Lapsed(users, Start(rows, req).saved.conn)
    ensures req.id in Cut(users, sessions, req) <==> !Unchecked(Start(rows, req), req)
  {
  }

  lemma RevokedRow(req: Request, now: int, r: Row, t: Row, run: Option<Run>, cut: bool)
    requires RowOk(r) && RequesterRow(req, now, r, t, run, cut) && (cut <==> !Unchecked(r, req))
    ensures t.closed && run.None?
    ensures (exists o :: o in t.saved.output && o.id <= r.saved.nextOutput) <==>
            Unchecked(r, req) && Trim(r.saved.output, req.ack) != []
  {
    if !cut {
      var closed := r.closed || req.kind == Close;
      TrimKeeps(r.saved, req.ack);
      var c := r.saved.(output := Trim(r.saved.output, req.ack), closed := closed);
      assert Shape(c);
      GrownOld(c, t.saved);
    }
  }
}
