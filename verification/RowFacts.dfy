// What a committed dispatch does to the stored rows: the requester's row, the rows
// of bystanders, and the rows whose sessions it revoked.
module RowFacts {
  import opened Wrappers
  import opened Terminalwire
  import opened CoreSession
  import opened CoreDispatch
  import opened DispatchFacts

  ghost predicate RowOk(r: Row) {
    r.closed == r.saved.closed && Shape(r.saved)
  }

  ghost predicate RowsOk(rows: map<nat, Row>) {
    forall j :: j in rows ==> RowOk(rows[j])
  }

  // A revocation withdraws everything pending: at most the farewell with a new ID is left.
  ghost predicate CutOff(c: Checkpoint, d: Checkpoint) {
    && d.closed && |d.output| <= 1 && Shape(d) && d.conn == c.conn
    && d.nextOutput >= c.nextOutput + |d.output|
  }

  ghost predicate CutRow(r: Row, t: Row) {
    t.edge == r.edge && t.sequence == r.sequence && t.lastSeen == r.lastSeen
    && t.closed && t.character == None && CutOff(r.saved, t.saved)
  }

  // A bystander's row only gains outputs; its owner column is derived again when written.
  ghost predicate KeptRow(r: Row, t: Row) {
    && t.edge == r.edge && t.sequence == r.sequence && t.lastSeen == r.lastSeen
    && t.saved.conn == r.saved.conn && t.saved.scene == r.saved.scene
    && Grows(r.saved, t.saved) && t.closed == t.saved.closed
    && (t == r || t.character == if Playing(t.closed, t.saved.conn) then t.saved.conn.character else None)
  }

  const BLANK := Checkpoint(FRESH_CONN, [], 0, false, "")

  // The row the requester starts from: its own, or a blank one for a first `open`.
  function Start(rows: map<nat, Row>, req: Request): Row {
    if req.id in rows then rows[req.id] else Row(req.edge, 0, None, BLANK, false, 0)
  }

  ghost predicate RequesterRow(req: Request, now: int, r: Row, t: Row, run: Option<Run>, cut: bool) {
    && r.edge == req.edge && t.edge == r.edge && t.lastSeen == now && t.closed == t.saved.closed
    && req.ack <= r.saved.nextOutput
    && (if cut then CutOff(r.saved, t.saved)
        else Grows(r.saved.(output := Trim(r.saved.output, req.ack), closed := r.closed || req.kind == Close), t.saved))
    && (cut ==> !r.closed && req.kind != Close)
    && (t.character == if Playing(t.closed, t.saved.conn) then t.saved.conn.character else None)
    && t.sequence == (if req.kind == Close && req.sequence > r.sequence then req.sequence
                      else if run.Some? || (t.closed && req.sequence == r.sequence + 1) then req.sequence
                      else r.sequence)
    && (run.Some? ==> req.sequence == r.sequence + 1 && !r.closed && !cut && req.kind != Close
                      && run.value.id == req.id && run.value.sequence == req.sequence
                      && run.value.kind == req.kind && run.value.line == req.line
                      && (req.kind == Open ==> r.sequence == 0))
    && (!t.closed && req.sequence == r.sequence + 1 ==> run.Some?)
    && (req.sequence <= r.sequence + 1 || req.kind == Close)
  }

  // Everything a committed dispatch guarantees about the rows and its reply.
  ghost predicate Step<W>(env: Env, rows: map<nat, Row>, req: Request, r: Result<W>)
    requires r.Committed?
  {
    && r.db.rows.Keys == rows.Keys + {req.id} && r.cut <= rows.Keys + {req.id}
    && (forall j :: j in rows && j != req.id ==>
          if j in r.cut then CutRow(rows[j], r.db.rows[j]) else KeptRow(rows[j], r.db.rows[j]))
    && RequesterRow(req, env.now, Start(rows, req), r.db.rows[req.id], r.run, req.id in r.cut)
    && r.reply == Response(r.db.rows[req.id].sequence, r.db.rows[req.id].saved.output, r.db.rows[req.id].closed, false)
    && Unique(r.db.rows)
    && (r.departed ==> !Start(rows, req).closed && r.db.rows[req.id].closed)
  }

  lemma StartOk(rows: map<nat, Row>, req: Request)
    requires RowsOk(rows)
    ensures RowOk(Start(rows, req))
  {
  }

  lemma RecheckFacts<W>(g: Game<W>, users: map<nat, User>, s: Session)
    requires Shape(s.saved)
    ensures var t := Recheck(g, users, s);
            && t.edge == s.edge && t.sequence == s.sequence && t.conn == s.saved.conn == t.saved.conn
            && (if Revoked(users, s.saved) then CutOff(s.saved, t.saved) && t.dirty
                else t.saved == s.saved && t.dirty == s.dirty)
  {
    if Revoked(users, s.saved) {
      var r := s.(conn := s.saved.conn);
      var (t, quit) := CheckSession(g, users, r);
      assert quit && t.saved.nextOutput >= s.saved.nextOutput;
      CutOffWrite(s.saved, t, g.notice(Ended));
    }
  }

  lemma CutOffWrite(c: Checkpoint, t: Session, data: string)
    requires t.saved.conn == c.conn && t.saved.nextOutput >= c.nextOutput
    ensures var cleared := t.(saved := t.saved.(output := [], closed := true), dirty := true);
            CutOff(c, Write(cleared, data).saved) && Write(cleared, data).dirty
  {
    var cleared := t.(saved := t.saved.(output := [], closed := true), dirty := true);
    WriteQuiet(cleared, data);
  }

  ghost predicate Loaded(rows: map<nat, Row>, sessions: map<nat, Session>, req: Request) {
    && sessions.Keys <= rows.Keys + {req.id}
    && req.id in sessions && sessions[req.id] == LoadRow(Start(rows, req))
    && forall j :: j in sessions && j != req.id ==> sessions[j] == LoadRow(rows[j])
  }

  // The sessions a dispatch works on: those loaded, and a new one for a first `open`.
  function Sessions(rows: map<nat, Row>, req: Request, now: int): (r: map<nat, Session>)
    ensures req.id in r
  {
    var sessions := Load(rows, req.id, now);
    if req.id in sessions then sessions else sessions[req.id := NewSession(req.edge)]
  }

  lemma DispatchServes<W>(g: Game<W>, env: Env, db: Database<W>, req: Request)
    ensures var rows := Sweep(db.rows, env.now);
            && Loaded(rows, Sessions(rows, req, env.now), req)
            && (Dispatch(g, env, db, req).Committed? ==>
                  && Dispatch(g, env, db, req) == Serve(g, env, db, rows, Sessions(rows, req, env.now), req)
                  && WellFormed(req) && (req.id !in rows ==> req.kind == Open && req.sequence == 1))
  {
    hide Serve;
  }

  // The row stored for a bystander, from what the turn did to its session.
  lemma StoredBystander(r: Row, s: Session, t: Session, player: bool, failed: bool, revoked: bool, id: nat, j: nat, now: int)
    requires RowOk(r) && id != j
    requires s.edge == r.edge && s.sequence == r.sequence && s.conn == r.saved.conn == s.saved.conn
    requires if revoked then CutOff(r.saved, s.saved) && s.dirty && !player else s.saved == r.saved && !s.dirty
    requires Bystander(s, t, player, failed)
    ensures var u := if t.dirty then SaveRow(t, r.lastSeen) else r;
            if revoked && !failed then CutRow(r, u) else KeptRow(r, u)
  {
    assert Grows(r.saved, r.saved);
    assert t.saved.(conn := t.conn) == t.saved;
  }

  lemma AdmitSteps<W>(g: Game<W>, base: map<nat, Session>, id: nat)
    requires id in base
    ensures Mine(base[id], Admit(g, base, id))
    ensures base[id].saved.closed ==> Admit(g, base, id) == base[id]
  {
    var s := base[id];
    WriteQuiet(s.(conn := s.conn.(phase := Authenticated, character := None, room := None)), g.notice(Elsewhere));
  }

  // The requester as the turn finds it.
  lemma RequesterBegins<W>(g: Game<W>, env: Env, rows: map<nat, Row>, sessions: map<nat, Session>, req: Request, world: W)
    requires Loaded(rows, sessions, req) && RowOk(Start(rows, req)) && Acceptable(sessions[req.id], req)
    ensures var r := Start(rows, req);
            var s := Begin(g, world, Base(g, env, sessions, req), req.id).sessions[req.id];
            && s.edge == r.edge == req.edge && s.dirty
            && s.sequence == (if req.kind == Close && req.sequence > r.sequence then req.sequence else r.sequence)
            && (if req.id in Cut(env.users, sessions, req)
                then CutOff(r.saved, s.saved) && s.conn == s.saved.conn && !r.closed && req.kind != Close
                else Grows(r.saved.(output := Trim(r.saved.output, req.ack), closed := r.closed || req.kind == Close), s.saved))
  {
    hide Admit;
    var r := Start(rows, req);
    var base := Base(g, env, sessions, req);
    var s0 := Acknowledge(Hangup(sessions[req.id], req), req.ack);
    TrimKeeps(r.saved, req.ack);
    assert Shape(s0.saved);
    RecheckFacts(g, env.users, s0);
    AdmitSteps(g, base, req.id);
    if req.id !in Cut(env.users, sessions, req) {
      assert base[req.id].saved == s0.saved;
    }
  }

  lemma BystanderBegins<W>(g: Game<W>, env: Env, rows: map<nat, Row>, sessions: map<nat, Session>, req: Request, world: W, j: nat)
    requires Loaded(rows, sessions, req) && RowsOk(rows) && j in sessions && j != req.id
    ensures var lane := Begin(g, world, Base(g, env, sessions, req), req.id);
            var s := lane.sessions[j];
            && s.edge == rows[j].edge && s.sequence == rows[j].sequence && s.conn == rows[j].saved.conn == s.saved.conn
            && (if j in Cut(env.users, sessions, req) then CutOff(rows[j].saved, s.saved) && s.dirty && j !in lane.players
                else s.saved == rows[j].saved && !s.dirty)
  {
    hide Admit;
    RecheckFacts(g, env.users, sessions[j]);
  }

  // The lane as the turn of this request finds it, and as it leaves it.
  ghost function Opening<W>(g: Game<W>, env: Env, world: W, sessions: map<nat, Session>, req: Request): (r: Lane<W>)
    requires req.id in sessions
    ensures r.sessions.Keys == sessions.Keys
  {
    Begin(g, world, Base(g, env, sessions, req), req.id)
  }

  // The requester as its turn begins.
  ghost function OpeningSession<W>(g: Game<W>, env: Env, world: W, sessions: map<nat, Session>, req: Request): Session
    requires req.id in sessions
  {
    Opening(g, env, world, sessions, req).sessions[req.id]
  }

  ghost function Closing<W>(g: Game<W>, env: Env, world: W, sessions: map<nat, Session>, req: Request): (r: Turned<W>)
    requires req.id in sessions
    ensures r.lane.sessions.Keys == sessions.Keys
  {
    Turn(g, env, Opening(g, env, world, sessions, req), req, sessions[req.id].saved.closed)
  }

  // The requester as its turn begins: perhaps back at character selection.
  lemma OpeningConn<W>(g: Game<W>, env: Env, world: W, rows: map<nat, Row>, sessions: map<nat, Session>, req: Request)
    requires Loaded(rows, sessions, req)
    ensures var c0 := Start(rows, req).saved.conn;
            var s := OpeningSession(g, env, world, sessions, req);
            && (s.conn == c0 || (c0.phase.InGame? && s.conn == c0.(phase := Authenticated, character := None, room := None)))
            && (!s.saved.closed ==> !Start(rows, req).saved.closed
                                    && (SignedIn(c0) ==> c0.credential.Some? && Active(env.users, c0.credential.value)))
  {
    hide Taken;
    WriteFacts();
  }

  lemma WriteFacts()
    ensures forall s, d :: Write(s, d).conn == s.conn && (s.saved.closed ==> Write(s, d).saved.closed)
  {
  }

  lemma ClosingTurned<W>(g: Game<W>, env: Env, rows: map<nat, Row>, sessions: map<nat, Session>, req: Request, world: W)
    requires Loaded(rows, sessions, req) && RowsOk(rows)
    ensures var lane := Opening(g, env, world, sessions, req);
            var t := Closing(g, env, world, sessions, req);
            var s := lane.sessions[req.id];
            var f := t.lane.sessions[req.id];
            && Turned1(lane, t.lane, req.id, t.outcome == Some(Failed))
            && (t.outcome.Some? <==> IsFresh(s, req.sequence))
            && f.sequence == (if IsFresh(s, req.sequence) || (f.saved.closed && req.sequence == s.sequence + 1)
                              then req.sequence else s.sequence)
            && (t.outcome.None? ==> f.saved == s.saved && f.conn == s.conn && t.lane.world == lane.world && t.lane.acts == lane.acts)
            && (t.departed ==> !sessions[req.id].saved.closed && f.saved.closed)
  {
    hide Turn, Begin, Base, Turned1;
    var lane := Opening(g, env, world, sessions, req);
    forall j | j in sessions && j != req.id
      ensures lane.sessions[j].conn == lane.sessions[j].saved.conn
    {
      BystanderBegins(g, env, rows, sessions, req, world, j);
    }
    TurnTurned(g, env, lane, req, sessions[req.id].saved.closed);
  }

  lemma ServeBystander<W>(g: Game<W>, env: Env, rows: map<nat, Row>, sessions: map<nat, Session>, req: Request, world: W, j: nat)
    requires Loaded(rows, sessions, req) && RowsOk(rows) && j in sessions && j != req.id
    ensures var t := Closing(g, env, world, sessions, req);
            var f := t.lane.sessions[j];
            var u := if f.dirty then SaveRow(f, rows[j].lastSeen) else rows[j];
            if j in Cut(env.users, sessions, req) && t.outcome != Some(Failed) then CutRow(rows[j], u) else KeptRow(rows[j], u)
  {
    hide Turn, Begin, Base, Shape, SaveRow, Cut, KeptRow, CutRow;
    ClosingTurned(g, env, rows, sessions, req, world);
    BystanderBegins(g, env, rows, sessions, req, world, j);
    var lane := Opening(g, env, world, sessions, req);
    var t := Closing(g, env, world, sessions, req);
    assert Bystander(lane.sessions[j], t.lane.sessions[j], j in lane.players, t.outcome == Some(Failed));
    assert RowOk(rows[j]);
    StoredBystander(rows[j], lane.sessions[j], t.lane.sessions[j], j in lane.players,
                    t.outcome == Some(Failed), j in Cut(env.users, sessions, req), req.id, j, env.now);
  }

  lemma ServeRequester<W>(g: Game<W>, env: Env, rows: map<nat, Row>, sessions: map<nat, Session>, req: Request, world: W)
    requires Loaded(rows, sessions, req) && RowsOk(rows) && Acceptable(sessions[req.id], req)
    requires IsFresh(Opening(g, env, world, sessions, req).sessions[req.id], req.sequence) && req.kind == Open
             ==> sessions[req.id].sequence == 0
    ensures var t := Closing(g, env, world, sessions, req);
            var f := t.lane.sessions[req.id];
            var run := Record(req, OpeningSession(g, env, world, sessions, req), t);
            (t.departed ==> !Start(rows, req).closed && f.saved.closed) &&
            f.dirty && RequesterRow(req, env.now, Start(rows, req), SaveRow(f, env.now), run, req.id in Cut(env.users, sessions, req))
  {
    hide Turn, Begin, Base, Shape, SaveRow, Cut, Start, RequesterRow, CutOff, Grows;
    ClosingTurned(g, env, rows, sessions, req, world);
    StartOk(rows, req);
    RequesterBegins(g, env, rows, sessions, req, world);
    var t := Closing(g, env, world, sessions, req);
    var s := OpeningSession(g, env, world, sessions, req);
    StoredRequester(req, env.now, Start(rows, req), s, t.lane.sessions[req.id], Record(req, s, t), t.outcome,
                    req.id in Cut(env.users, sessions, req));
  }

  lemma StoredShape(req: Request, now: int, r: Row, u: Row, run: Option<Run>, cut: bool)
    requires RequesterRow(req, now, r, u, run, cut) && RowOk(r)
    ensures RowOk(u)
  {
    TrimKeeps(r.saved, req.ack);
  }

  // The main fact about the rows: every committed dispatch is a Step.
  lemma ServeStep<W>(g: Game<W>, env: Env, db: Database<W>, rows: map<nat, Row>, sessions: map<nat, Session>, req: Request)
    requires Loaded(rows, sessions, req) && RowsOk(rows)
    requires Serve(g, env, db, rows, sessions, req).Committed?
    ensures Step(env, rows, req, Serve(g, env, db, rows, sessions, req))
  {
    hide Base, Begin, Turn, Cut, Unique, KeptRow, CutRow, RowsOk, RequesterRow, Start, Turned1, Acceptable;
    var r := Serve(g, env, db, rows, sessions, req);
    CutLoaded(env.users, sessions, req);
    forall j | j in rows && j != req.id
      ensures if j in r.cut then CutRow(rows[j], r.db.rows[j]) else KeptRow(rows[j], r.db.rows[j])
    {
      if j in sessions {
        ServeBystander(g, env, rows, sessions, req, db.world, j);
      } else {
        UntouchedKept(rows, j);
      }
    }
    ServeRequester(g, env, rows, sessions, req, db.world);
    if Closing(g, env, db.world, sessions, req).outcome.Some? {
      FailedUncut(g, env, rows, sessions, req, db.world);
    }
  }

  // A failed command was fresh, so the requester was not revoked.
  lemma FailedUncut<W>(g: Game<W>, env: Env, rows: map<nat, Row>, sessions: map<nat, Session>, req: Request, world: W)
    requires Loaded(rows, sessions, req) && RowsOk(rows) && Acceptable(sessions[req.id], req)
    requires Closing(g, env, world, sessions, req).outcome.Some?
    ensures req.id !in Cut(env.users, sessions, req)
  {
    hide Turn, Begin, Base, Shape, Cut, Start, Turned1;
    ClosingTurned(g, env, rows, sessions, req, world);
    StartOk(rows, req);
    RequesterBegins(g, env, rows, sessions, req, world);
  }

  lemma UntouchedKept(rows: map<nat, Row>, j: nat)
    requires RowsOk(rows) && j in rows
    ensures KeptRow(rows[j], rows[j])
  {
  }

  lemma CutLoaded(users: map<nat, User>, sessions: map<nat, Session>, req: Request)
    ensures Cut(users, sessions, req) <= sessions.Keys
  {
  }

  lemma StoredRequester(req: Request, now: int, r: Row, s: Session, f: Session, run: Option<Run>, outcome: Option<Outcome>, revoked: bool)
    requires RowOk(r) && r.edge == req.edge && s.edge == r.edge && f.edge == s.edge
    requires req.ack <= r.saved.nextOutput
    requires req.sequence <= r.sequence + 1 || req.kind == Close
    requires s.sequence == (if req.kind == Close && req.sequence > r.sequence then req.sequence else r.sequence)
    requires if revoked then CutOff(r.saved, s.saved) && !r.closed && req.kind != Close
             else Grows(r.saved.(output := Trim(r.saved.output, req.ack), closed := r.closed || req.kind == Close), s.saved)
    requires Grows(s.saved, f.saved) && (outcome.None? ==> f.saved == s.saved && f.conn == s.conn)
    requires revoked ==> s.conn == s.saved.conn
    requires outcome.Some? <==> IsFresh(s, req.sequence)
    requires f.sequence == (if IsFresh(s, req.sequence) || (f.saved.closed && req.sequence == s.sequence + 1)
                            then req.sequence else s.sequence)
    requires run.Some? <==> outcome.Some?
    requires run.Some? ==> run.value.id == req.id && run.value.sequence == req.sequence
                           && run.value.kind == req.kind && run.value.line == req.line
    requires outcome.Some? && req.kind == Open ==> s.sequence == 0
    ensures RequesterRow(req, now, r, SaveRow(f, now), run, revoked)
  {
    if !revoked {
      var c := r.saved.(output := Trim(r.saved.output, req.ack), closed := r.closed || req.kind == Close);
      GrowsTransitive(c, s.saved, f.saved);
      assert Grows(c, SaveRow(f, now).saved);
    }
  }

  lemma DispatchStep<W>(g: Game<W>, env: Env, db: Database<W>, req: Request)
    requires RowsOk(db.rows) && Dispatch(g, env, db, req).Committed?
    ensures Step(env, Sweep(db.rows, env.now), req, Dispatch(g, env, db, req))
    ensures WellFormed(req) && (req.id !in Sweep(db.rows, env.now) ==> req.kind == Open && req.sequence == 1)
  {
    hide Serve, Step;
    var rows := Sweep(db.rows, env.now);
    var sessions := Load(rows, req.id, env.now);
    var loaded := if req.id in sessions then sessions else sessions[req.id := NewSession(req.edge)];
    assert Loaded(rows, loaded, req);
    ServeStep(g, env, db, rows, loaded, req);
  }

  // An answer without a commit: the session is unknown and the request cannot open it.
  lemma DispatchAnswered<W>(g: Game<W>, env: Env, db: Database<W>, req: Request)
    requires Dispatch(g, env, db, req).Answered?
    ensures req.id !in Sweep(db.rows, env.now)
    ensures var reply := Dispatch(g, env, db, req).reply;
            reply.sequence == req.sequence && reply.output == []
            && (if req.kind == Close then reply.closed && !reply.reset
                else reply.reset && !(req.kind == Open && req.sequence == 1))
  {
    hide Serve;
    var sessions := Load(Sweep(db.rows, env.now), req.id, env.now);
    if req.id in sessions {
      ServeNeverAnswers(g, env, db, Sweep(db.rows, env.now), sessions, req);
    } else if req.sequence == 1 && req.kind == Open {
      ServeNeverAnswers(g, env, db, Sweep(db.rows, env.now), sessions[req.id := NewSession(req.edge)], req);
    }
  }

  lemma ServeNeverAnswers<W>(g: Game<W>, env: Env, db: Database<W>, rows: map<nat, Row>, sessions: map<nat, Session>, req: Request)
    requires req.id in sessions && sessions.Keys <= rows.Keys + {req.id}
    ensures !Serve(g, env, db, rows, sessions, req).Answered?
  {
    hide Base, Begin, Turn, Store, Unique, Cut;
  }
}
