// Concrete inputs for the exceptions of the edge/core protocol: a commit the unique index
// refuses, a failed command other sessions notice, a revocation it delays, output returned
// after a revocation, and a player who leaves unannounced.
module Exceptions {
  import opened Wrappers
  import opened Terminalwire
  import opened CoreSession
  import opened CoreDispatch
  import opened DispatchFacts
  import opened RowFacts
  import opened Failures
  import opened Ownership
  import opened OwnerIndex
  import opened Revocation
  import opened Acts
  import opened Messages
  import opened Replies
  import opened Leases

  // A game in which every user owns the one character of its own number, entering
  // succeeds, every command in play fails, and a refusal is a short word.
  function Sample(): Game<int> {
    Game((n: Notice) => if n.Refused? then "no" else "",
         (c: Conn, line: string) => Choose(1),
         (c: Conn, name: string) => "",
         (c: nat) => c,
         (w: int, user: nat) => [user],
         (w: int, c: nat) => Some(1),
         (w: int, present: map<nat, Conn>, id: nat) => Effect(w, Some(1), "", [], Done),
         (w: int, present: map<nat, Conn>, id: nat, line: string) => Effect(w + 1, Some(1), "", [], Failed),
         (w: int, scene: string, room: nat, notify: bool) => Sighting(w, "", []))
  }

  function At(phase: Phase, user: nat, character: Option<nat>): Conn {
    Conn(phase, Some(Credential(user, 1)), character, if character.Some? then Some(1) else None, "", "")
  }

  function Kept(c: Conn, lastSeen: int): Row {
    Row(0, 1, c.character, Checkpoint(c, [], 0, false, ""), false, lastSeen)
  }

  lemma DispatchServing<W>(g: Game<W>, env: Env, db: Database<W>, req: Request)
    requires !env.fault && WellFormed(req) && req.id in Sweep(db.rows, env.now)
    ensures Dispatch(g, env, db, req) ==
            Serve(g, env, db, Sweep(db.rows, env.now), Sessions(Sweep(db.rows, env.now), req, env.now), req)
  {
    hide Serve;
  }

  // ---------------------------------------------------------------- the lease boundary

  // User 7 plays character 7 in session 2, whose lease ends this very microsecond, and
  // chooses the same character in session 1.
  const STALE := map[1 := Kept(At(Authenticated, 7, None), LEASE), 2 := Kept(At(InGame, 7, Some(7)), 0)]

  const SEVEN := map[7 := User(true, 1)]

  const CHOOSE := Request(0, 1, 2, 0, Input, "1")

  const THEN := Env(LEASE, SEVEN, map[], None, false)

  lemma PostNothing<W>(lane: Lane<W>, id: nat)
    ensures Post(lane, id, []) == lane
  {
    assert Post(lane, id, []).sessions == lane.sessions;
  }

  // Choosing the only character while nobody else is there enters the realm.
  lemma Chooses(lane: Lane<int>, s: Session)
    requires lane.sessions == map[1 := s] && s.conn == At(Authenticated, 7, None)
    ensures var r := SelectCharacter(Sample(), lane, 1, 1);
            r.1 == Done && r.0.sessions == map[1 := s.(conn := At(InGame, 7, Some(7)))]
  {
    var d := At(InGame, 7, Some(7));
    assert !Taken(lane.sessions, 1, 7);
    var entered := SetConn(lane, 1, d);
    var listed := entered.(players := entered.players + {1});
    var act := Enter(Present(listed, 1), 1);
    var last := listed.(acts := listed.acts + [act], players := listed.players + {1});
    PostNothing(last, 1);
    assert SetConn(listed, 1, d).sessions == listed.sessions;
  }

  lemma ChooseExecutes(lane: Lane<int>, s: Session)
    requires lane.sessions == map[1 := s] && s.conn == s.saved.conn == At(Authenticated, 7, None)
    ensures var r := Execute(Sample(), THEN, lane, CHOOSE, false);
            r.1 == Done && r.0.sessions == map[1 := s.(conn := At(InGame, 7, Some(7)), sequence := 2)]
  {
    hide SelectCharacter;
    var before := CaptureAll(lane);
    assert before.sessions == map[1 := s];
    Chooses(before, s);
    assert Perform(Sample(), THEN, before, CHOOSE) == SelectCharacter(Sample(), before, 1, 1);
  }

  lemma ChooseTurns(lane: Lane<int>, s: Session)
    requires lane.sessions == map[1 := s] && s.conn == s.saved.conn == At(Authenticated, 7, None)
    requires s.sequence == 1 && !s.saved.closed
    ensures var f := Turn(Sample(), THEN, lane, CHOOSE, false).lane.sessions[1];
            f.conn == At(InGame, 7, Some(7)) && !f.saved.closed
  {
    hide Execute;
    ChooseExecutes(lane, s);
  }

  lemma ChooseBegins()
    ensures var s := LoadRow(STALE[1]).(dirty := true);
            Opening(Sample(), THEN, 0, map[1 := LoadRow(STALE[1])], CHOOSE).sessions == map[1 := s]
  {
    var s := LoadRow(STALE[1]);
    var base := Base(Sample(), THEN, map[1 := s], CHOOSE);
    assert Acknowledge(Hangup(s, CHOOSE), 0) == s.(dirty := true);
    assert base == map[1 := s.(dirty := true)];
  }

  lemma StaleLoads()
    ensures Sweep(STALE, LEASE) == STALE && Sessions(STALE, CHOOSE, LEASE) == map[1 := LoadRow(STALE[1])]
  {
    assert Load(STALE, 1, LEASE) == map[1 := LoadRow(STALE[1])];
  }

  lemma ChoiceHeld()
    ensures Held(STALE, LEASE, 1, SaveRow(Closing(Sample(), THEN, 0, map[1 := LoadRow(STALE[1])], CHOOSE).lane.sessions[1], LEASE))
  {
    hide Turn, Opening;
    ChooseBegins();
    ChooseTurns(Opening(Sample(), THEN, 0, map[1 := LoadRow(STALE[1])], CHOOSE), LoadRow(STALE[1]).(dirty := true));
    assert 2 in STALE && STALE[2].lastSeen == LEASE - LEASE;
  }

  // The dispatch the index refuses: the table is orderly, nothing fails, and still the
  // request is not answered at this instant.
  lemma BoundaryRefuses()
    ensures Owned(Sample()) && OwnOk(Sample(), STALE, LEASE, SEVEN)
    ensures Blocked(Sample(), THEN, Database(STALE, 0), CHOOSE)
    ensures Dispatch(Sample(), THEN, Database(STALE, 0), CHOOSE).Aborted?
  {
    StaleLoads();
    ChoiceHeld();
    StaleOrderly();
    StaleAdmitted();
    SweepLapses(STALE, LEASE);
    var sessions := map[1 := LoadRow(STALE[1])];
    DispatchServing(Sample(), THEN, Database(STALE, 0), CHOOSE);
    hide Serve, Dispatch, Closing, Owned, OwnOk, Held, Admitted, Lapses, Sweep, Sessions, SaveRow;
    RequesterRowStored(Sample(), THEN, 0, STALE, sessions, CHOOSE);
    ServeCommits(Sample(), THEN, Database(STALE, 0), STALE, sessions, CHOOSE);
  }

  lemma StaleOrderly()
    ensures Owned(Sample()) && OwnOk(Sample(), STALE, LEASE, SEVEN)
  {
  }

  lemma StaleAdmitted()
    ensures Admitted(Sample(), THEN, 0, STALE, map[1 := LoadRow(STALE[1])], CHOOSE)
  {
    hide Opening;
    ChooseBegins();
  }

  // ---------------------------------------------------------------- a failing command

  // A terminal that has acknowledged nothing of an outbox filled to its limit.
  const FULL := Output(1, seq(OUTBOX_LIMIT, _ => 'x'))

  function Pending(c: Conn, o: Output): Row {
    Row(0, 1, c.character, Checkpoint(c, [o], o.id, false, ""), false, 0)
  }

  // Users 7, 8 and 9 play in sessions 1, 2 and 3; the terminal of session 1 is slow and
  // the credential of user 9 was replaced.
  const ROOM := map[1 := Pending(At(InGame, 7, Some(7)), FULL), 2 := Kept(At(InGame, 8, Some(8)), 0), 3 := Kept(At(InGame, 9, Some(9)), 0)]

  const NINE := map[7 := User(true, 1), 8 := User(true, 1), 9 := User(true, 2)]

  const TYPE := Request(0, 1, 2, 0, Input, "x")

  const NOW := Env(0, NINE, map[], None, false)

  const LIVE := map[1 := LoadRow(ROOM[1]), 2 := LoadRow(ROOM[2]), 3 := LoadRow(ROOM[3])]

  lemma RoomLoads()
    ensures Sweep(ROOM, 0) == ROOM && Sessions(ROOM, TYPE, 0) == LIVE
  {
    assert Load(ROOM, 1, 0) == LIVE;
  }

  lemma OneOutput(o: Output)
    ensures Size([o]) == |o.data| && Trim([o], 0) == if o.id == 0 then [] else [o]
  {
    assert [o][..0] == [] && [o][1..] == [];
  }

  lemma RoomBegins()
    ensures var lane := Opening(Sample(), NOW, 0, LIVE, TYPE);
            && lane.sessions[1] == LoadRow(ROOM[1]).(dirty := true)
            && 2 in lane.players
  {
    var base := Base(Sample(), NOW, LIVE, TYPE);
    OneOutput(FULL);
    assert Acknowledge(Hangup(LIVE[1], TYPE), 0) == LIVE[1].(dirty := true);
    assert base[1] == LIVE[1].(dirty := true);
    assert base[2] == LIVE[2];
    assert base[3].saved.closed;
    assert !Taken(base, 1, 7);
  }

  lemma PlayFails(lane: Lane<int>)
    requires 1 in lane.sessions && lane.sessions[1].conn == At(InGame, 7, Some(7))
    ensures Perform(Sample(), NOW, lane, TYPE).1 == Failed
  {
    hide Post, SetConn, Present;
  }

  lemma RefusalOverflows(lane: Lane<int>)
    requires 1 in lane.sessions && lane.sessions[1].conn == At(InGame, 7, Some(7))
    requires lane.sessions[1].saved.output == [FULL]
    ensures Overflows(Sample(), lane, TYPE)
  {
    OneOutput(FULL);
    assert WriteAll(lane.sessions[1], []) == lane.sessions[1];
  }

  lemma TypeTurns(lane: Lane<int>)
    requires 1 in lane.sessions && lane.sessions[1].conn == At(InGame, 7, Some(7))
    requires lane.sessions[1].sequence == 1 && !lane.sessions[1].saved.closed
    ensures Turn(Sample(), NOW, lane, TYPE, false).outcome == Some(Failed)
  {
    hide Observe, CaptureAll, Perform, Keep, Depart, LookAround;
    SeenUnmoved(Sample(), lane, 1, true);
    PlayFails(CaptureAll(Observe(Sample(), lane, 1, true)));
  }

  // The command of session 1 fails, and its refusal does not fit the outbox.
  lemma TypeFails()
    ensures var lane := Opening(Sample(), NOW, 0, LIVE, TYPE);
            Closing(Sample(), NOW, 0, LIVE, TYPE).outcome == Some(Failed) && Overflows(Sample(), lane, TYPE)
  {
    hide Opening, Turn, Overflows;
    RoomBegins();
    TypeTurns(Opening(Sample(), NOW, 0, LIVE, TYPE));
    RefusalOverflows(Opening(Sample(), NOW, 0, LIVE, TYPE));
  }

  lemma RoomOrderly()
    ensures OwnOk(Sample(), ROOM, 0, NINE) && Admitted(Sample(), NOW, 0, ROOM, LIVE, TYPE)
  {
    hide Opening;
    RoomBegins();
    OneOutput(FULL);
  }

  lemma NotHeld(rows: map<nat, Row>, now: int, id: nat, r: Row)
    requires forall j :: j in rows ==> rows[j].lastSeen != now - LEASE
    ensures !Held(rows, now, id, r)
  {
  }

  // Away from the lease boundary a request in step is committed from an orderly table.
  lemma OrderlyCommits<W(!new)>(g: Game<W>, env: Env, db: Database<W>, sessions: map<nat, Session>, req: Request)
    requires Sweep(db.rows, env.now) == db.rows && Sessions(db.rows, req, env.now) == sessions && !env.fault && WellFormed(req)
    requires Owned(g) && OwnOk(g, db.rows, env.now, env.users) && Admitted(g, env, db.world, db.rows, sessions, req)
    requires (forall k :: k in db.rows ==> db.rows[k].lastSeen != env.now - LEASE) && req.id in db.rows
    ensures Dispatch(g, env, db, req) == Serve(g, env, db, db.rows, sessions, req)
    ensures Dispatch(g, env, db, req).Committed?
  {
    SweepLapses(db.rows, env.now);
    hide Serve, Opening, Closing, Owned, OwnOk, Lapses, Sweep, StoredAt, Held, Load;
    NotHeld(db.rows, env.now, req.id, StoredAt(g, env, db.world, db.rows, sessions, req, req.id));
    ServeCommits(g, env, db, db.rows, sessions, req);
    DispatchServing(g, env, db, req);
  }

  // A dispatch from an orderly table whose command fails, seen from two bystanders.
  lemma FailureReaches<W(!new)>(g: Game<W>, env: Env, db: Database<W>, sessions: map<nat, Session>, req: Request, i: nat, j: nat)
    requires Sweep(db.rows, env.now) == db.rows && Sessions(db.rows, req, env.now) == sessions && !env.fault && WellFormed(req)
    requires Owned(g) && OwnOk(g, db.rows, env.now, env.users) && Admitted(g, env, db.world, db.rows, sessions, req)
    requires forall k :: k in db.rows ==> db.rows[k].lastSeen != env.now - LEASE
    requires Closing(g, env, db.world, sessions, req).outcome == Some(Failed)
    requires Overflows(g, Opening(g, env, db.world, sessions, req), req)
    requires i in db.rows && i != req.id && i in Opening(g, env, db.world, sessions, req).players
    requires Awaits(env.users, db.rows, env.now, j) && j != req.id && req.id in db.rows
    ensures var r := Dispatch(g, env, db, req);
            && r.Committed? && FailedRun(r)
            && i in r.db.rows && r.db.rows[i] != db.rows[i]
            && j in r.db.rows && r.db.rows[j] == db.rows[j]
  {
    OrderlyCommits(g, env, db, sessions, req);
    hide Serve, Opening, Turn, Owned, OwnOk, Sweep, Overflows, Closing, Awaits, Load;
    OwnRowsOk(g, db.rows, env.now, env.users);
    ServeUnfold(g, env, db, db.rows, sessions, req);
    FailedDispatch(g, env, db, req, i);
    CutUnlessFailed(g, env, db, req, j);
  }

  // One command fails, one other player is told that its player left, and one revoked
  // session keeps its open row with everything in it.
  lemma FailureReachesOthers()
    ensures Owned(Sample()) && OwnOk(Sample(), ROOM, 0, NINE) && Awaits(NINE, ROOM, 0, 3)
    ensures var r := Dispatch(Sample(), NOW, Database(ROOM, 0), TYPE);
            && r.Committed? && FailedRun(r)
            && 2 in r.db.rows && r.db.rows[2] != ROOM[2]
            && 3 in r.db.rows && r.db.rows[3] == ROOM[3]
  {
    StaleOrderly();
    RoomOrderly();
    RoomLoads();
    RoomBegins();
    TypeFails();
    hide Dispatch, Opening, Closing, Overflows, Owned, OwnOk, Admitted, Sweep, Sessions, FailedRun;
    FailureReaches(Sample(), NOW, Database(ROOM, 0), LIVE, TYPE, 2, 3);
  }

  // ---------------------------------------------------------------- output after a revocation

  // User 9 plays in session 3 with one output pending; its credential was replaced, and
  // the edge hangs up before anyone has noticed.
  const OLD := Output(1, "x")

  const GONE := map[3 := Pending(At(InGame, 9, Some(9)), OLD)]

  const HANG := Request(0, 3, 1, 0, Close, "")

  lemma GoneLoads()
    ensures Sweep(GONE, 0) == GONE && Sessions(GONE, HANG, 0) == map[3 := LoadRow(GONE[3])]
  {
    assert Load(GONE, 3, 0) == map[3 := LoadRow(GONE[3])];
  }

  lemma GoneOrderly()
    ensures OwnOk(Sample(), GONE, 0, NINE) && Lapsed(NINE, GONE[3].saved.conn)
    ensures Admitted(Sample(), NOW, 0, GONE, map[3 := LoadRow(GONE[3])], HANG)
    ensures Unchecked(GONE[3], HANG) && Trim(GONE[3].saved.output, 0) == [OLD]
  {
    OneOutput(OLD);
  }

  lemma GoneCommits()
    ensures Dispatch(Sample(), NOW, Database(GONE, 0), HANG).Committed?
  {
    var g, db, sessions := Sample(), Database(GONE, 0), map[3 := LoadRow(GONE[3])];
    StaleOrderly();
    GoneLoads();
    GoneOrderly();
    hide Serve, Dispatch, Sweep, Sessions, OwnOk, Owned, Admitted;
    OrderlyCommits(g, NOW, db, sessions, HANG);
  }

  // A dispatch of a revoked session that is not rechecked and has output pending is
  // committed, and its reply holds output from before the revocation.
  lemma OldOutputReturned()
    ensures OwnOk(Sample(), GONE, 0, NINE) && Lapsed(NINE, GONE[3].saved.conn)
    ensures var r := Dispatch(Sample(), NOW, Database(GONE, 0), HANG);
            r.Committed? && r.run.None? && exists o :: o in r.reply.output && o.id <= GONE[3].saved.nextOutput
  {
    GoneLoads();
    GoneOrderly();
    GoneCommits();
    hide Dispatch, Sweep, Sessions, OwnOk, Trim, Lapsed, Admitted;
    OwnRowsOk(Sample(), GONE, 0, NINE);
    RevokedDispatch(Sample(), NOW, Database(GONE, 0), HANG);
  }

  // ---------------------------------------------------------------- a departure nobody hears of

  // The same game with something to report of every room, and two players in one of them;
  // the terminal of session 1 is slow and polls.
  function Lively(): Game<int> {
    Sample().(observe := (w: int, scene: string, room: nat, notify: bool) => Sighting(w, "", ["x"]))
  }

  const CROWD := map[1 := Pending(At(InGame, 7, Some(7)), FULL), 2 := Kept(At(InGame, 8, Some(8)), 0)]

  const WAIT := Request(0, 1, 2, 0, Poll, "")

  const HERE := map[1 := LoadRow(CROWD[1]), 2 := LoadRow(CROWD[2])]

  lemma CrowdLoads()
    ensures Sweep(CROWD, 0) == CROWD && Sessions(CROWD, WAIT, 0) == HERE
  {
    assert Load(CROWD, 1, 0) == HERE;
  }

  lemma CrowdBegins()
    ensures Opening(Lively(), NOW, 0, HERE, WAIT).sessions[1] == LoadRow(CROWD[1]).(dirty := true)
  {
    var base := Base(Lively(), NOW, HERE, WAIT);
    OneOutput(FULL);
    assert Acknowledge(Hangup(HERE[1], WAIT), 0) == HERE[1].(dirty := true);
    assert base[1] == HERE[1].(dirty := true);
    assert base[2] == HERE[2];
    assert !Taken(base, 1, 7);
  }

  lemma CrowdOrderly()
    ensures Owned(Lively()) && OwnOk(Lively(), CROWD, 0, NINE) && Admitted(Lively(), NOW, 0, CROWD, HERE, WAIT)
  {
    hide Opening;
    CrowdBegins();
    OneOutput(FULL);
  }

  // The report on the room does not fit, and closes the session after its command.
  lemma ReportOverflows(lane: Lane<int>)
    requires 1 in lane.sessions && lane.sessions[1].conn == At(InGame, 7, Some(7)) && lane.sessions[1].saved.output == [FULL]
    ensures LookAround(Lively(), lane, 1, true).sessions[1].saved.closed
  {
    OneOutput(FULL);
    var s := lane.sessions[1];
    assert ["x"][..0] == [] && WriteAll(s, ["x"]) == Write(s, "x");
    WriteAllQuiet(Write(s, "x").(saved := Write(s, "x").saved.(scene := "")), [Lively().notice(Prompt)]);
    hide WriteAll;
  }

  lemma WaitTurns(lane: Lane<int>)
    requires 1 in lane.sessions && lane.sessions[1].conn == At(InGame, 7, Some(7)) && lane.sessions[1].saved.output == [FULL]
    requires lane.sessions[1].sequence == 1 && !lane.sessions[1].saved.closed
    ensures var t := Turn(Lively(), NOW, lane, WAIT, false);
            t.outcome == Some(Done) && t.lane.sessions[1].saved.closed
  {
    var s := lane.sessions[1];
    var ran := Execute(Lively(), NOW, lane, WAIT, true).0;
    assert ran.sessions[1] == Capture(s).(sequence := 2);
    hide LookAround, Execute;
    ReportOverflows(ran);
  }

  lemma PollCommits<W(!new)>(g: Game<W>, env: Env, db: Database<W>, sessions: map<nat, Session>, req: Request)
    requires Sweep(db.rows, env.now) == db.rows && Sessions(db.rows, req, env.now) == sessions && !env.fault && WellFormed(req)
    requires Owned(g) && OwnOk(g, db.rows, env.now, env.users) && Admitted(g, env, db.world, db.rows, sessions, req)
    requires forall k :: k in db.rows ==> db.rows[k].lastSeen != env.now - LEASE
    requires req.id in db.rows && req.kind == Poll && Closing(g, env, db.world, sessions, req).outcome == Some(Done)
    requires Closing(g, env, db.world, sessions, req).lane.sessions[req.id].saved.closed
    ensures var r := Dispatch(g, env, db, req);
            && r.Committed? && r.run.Some? && r.run.value.kind == Poll && r.run.value.outcome == Done
            && RowsOk(db.rows) && req.id in r.db.rows && r.db.rows[req.id].closed
  {
    OrderlyCommits(g, env, db, sessions, req);
    hide Serve, Dispatch, Opening, Closing, Owned, OwnOk, Sweep, Sessions, Load, Shape, Acceptable, RowsOk;
    OwnRowsOk(g, db.rows, env.now, env.users);
    AdmittedLoads(g, env, db.world, db.rows, sessions, req);
    hide Admitted, Loaded;
    ServeUnfold(g, env, db, db.rows, sessions, req);
    RecordOf(g, env, db, db.rows, sessions, req);
    RequesterDirty(g, env, db.rows, sessions, req, db.world);
  }

  lemma AdmittedLoads<W>(g: Game<W>, env: Env, world: W, rows: map<nat, Row>, sessions: map<nat, Session>, req: Request)
    requires Admitted(g, env, world, rows, sessions, req)
    ensures Loaded(rows, sessions, req)
  {
  }

  // A poll that is executed and leaves its session closed announces nothing, and nobody
  // else hears of it.
  lemma PollClosesQuietly<W>(g: Game<W>, env: Env, db: Database<W>, req: Request, j: nat)
    requires RowsOk(db.rows) && Sweep(db.rows, env.now) == db.rows
    requires var r := Dispatch(g, env, db, req);
             r.Committed? && r.run.Some? && r.run.value.kind == Poll && r.run.value.outcome == Done && req.kind == Poll
    requires Listed(env.users, db.rows, env.now, j) && j != req.id && db.rows[j].saved.output == []
    ensures var r := Dispatch(g, env, db, req);
            !r.departed && j in r.db.rows && r.db.rows[j].saved.output == []
  {
    hide Dispatch, Sweep, Listed, Heard, MailOf, Faithful, Shape, Start;
    var r := Dispatch(g, env, db, req);
    DepartsExactly(g, env, db, req);
    ListedRow(env.users, db.rows, env.now, j);
    EveryoneHears(g, env, db, req, j);
    DispatchActs(g, env, db, req);
    PollsSayNothing(g, db.world, r.run.value);
    assert Addressed([], j) + [] == [];
    HeardNothing(db.rows[j].saved, r.db.rows[j].saved);
  }

  lemma ListedRow(users: map<nat, User>, rows: map<nat, Row>, now: int, j: nat)
    ensures Listed(users, rows, now, j) ==> j in rows
  {
  }

  // A player whose session is closed by the report on its own room leaves unannounced: the
  // table is orderly, the dispatch is committed, and the other player hears nothing.
  lemma LeavesUnannounced()
    ensures OwnOk(Lively(), CROWD, 0, NINE) && Playing(CROWD[1].closed, CROWD[1].saved.conn) && Listed(NINE, CROWD, 0, 2)
    ensures var r := Dispatch(Lively(), NOW, Database(CROWD, 0), WAIT);
            && r.Committed? && !r.departed
            && 1 in r.db.rows && r.db.rows[1].closed
            && 2 in r.db.rows && r.db.rows[2].saved.output == []
  {
    CrowdOrderly();
    CrowdLoads();
    CrowdBegins();
    hide Dispatch, Sweep, Sessions, OwnOk, Owned, Admitted, Turn, Opening;
    WaitTurns(Opening(Lively(), NOW, 0, HERE, WAIT));
    PollCommits(Lively(), NOW, Database(CROWD, 0), HERE, WAIT);
    PollClosesQuietly(Lively(), NOW, Database(CROWD, 0), WAIT, 2);
  }

  lemma PollsSayNothing<W>(g: Game<W>, w: W, run: Run)
    requires Faithful(run) && run.kind == Poll
    ensures MailOf(g, w, run.acts) == []
  {
    var pre, mid, post :| Composed(run, pre, mid, post);
    LooksSayNothing(g, w, run.acts);
  }

  lemma HeardNothing(c: Checkpoint, d: Checkpoint)
    requires Heard(c, d, []) && c.output == []
    ensures d.output == []
  {
  }
}
