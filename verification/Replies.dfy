// What the requester in play is told: the reports on its room, the mail addressed to it,
// and the refusal of a command that failed.
module Replies {
  import opened Wrappers
  import opened Terminalwire
  import opened CoreSession
  import opened CoreDispatch
  import opened DispatchFacts
  import opened RowFacts
  import opened Failures
  import opened Acts
  import opened WorldReplay
  import opened Messages

  // What one call of the game has to say to the session it was made for.
  function ActVoice<W>(g: Game<W>, w: W, act: Act, id: nat): seq<string> {
    match act
    case Look(scene, room, notify) => g.observe(w, scene, room, notify).lines
    case Play(_, _, _) => Addressed(ActMail(g, w, act), id)
    case Enter(_, _) => Addressed(ActMail(g, w, act), id)
  }

  function Voice<W>(g: Game<W>, w: W, acts: seq<Act>, id: nat): seq<string> {
    if acts == [] then []
    else
      var n := |acts| - 1;
      Voice(g, w, acts[..n], id) + ActVoice(g, ReplayActs(g, w, acts[..n]), acts[n], id)
  }

  lemma VoiceNext<W>(g: Game<W>, w: W, acts: seq<Act>, act: Act, id: nat)
    ensures Voice(g, w, acts + [act], id) == Voice(g, w, acts, id) + ActVoice(g, ReplayActs(g, w, acts), act, id)
  {
    assert (acts + [act])[..|acts|] == acts;
  }

  // ---------------------------------------------------------------- outboxes

  // The outbox of a checkpoint, whatever else it holds.
  predicate SameBox(c: Checkpoint, d: Checkpoint) {
    c.output == d.output && c.nextOutput == d.nextOutput && c.closed == d.closed
  }

  lemma {:induction false} WriteSameBox(s: Session, t: Session, lines: seq<string>)
    requires SameBox(s.saved, t.saved)
    ensures SameBox(WriteAll(s, lines).saved, WriteAll(t, lines).saved)
  {
    if lines != [] {
      WriteSameBox(s, t, lines[..|lines| - 1]);
    }
  }

  lemma HeardBox(c: Checkpoint, d: Checkpoint, e: Checkpoint, f: Checkpoint, texts: seq<string>)
    requires Heard(c, d, texts) && SameBox(c, e) && SameBox(d, f)
    ensures Heard(e, f, texts)
  {
    hide Numbered, Total, Size;
    if !Fits(c, texts) {
      var k :| 0 <= k < |texts| && FullAt(c, d, texts, k);
      assert FullAt(e, f, texts, k);
    }
  }

  // Since session s, session t has been told these texts.
  ghost predicate Said(s: Session, t: Session, texts: seq<string>) {
    SameBox(t.saved, WriteAll(s, texts).saved)
  }

  lemma SaidMore(s: Session, t: Session, u: Session, a: seq<string>, b: seq<string>)
    requires Said(s, t, a) && SameBox(u.saved, WriteAll(t, b).saved)
    ensures Said(s, u, a + b)
  {
    WriteSameBox(t, WriteAll(s, a), b);
    WriteJoin(s, a, b);
    hide WriteAll;
  }

  lemma SaidHeard(s: Session, t: Session, texts: seq<string>)
    requires Said(s, t, texts) && Size(s.saved.output) <= OUTBOX_LIMIT
    ensures Heard(s.saved, t.saved, texts)
  {
    WriteAllHeard(s, texts);
    hide WriteAll, Heard;
    HeardBox(s.saved, WriteAll(s, texts).saved, s.saved, t.saved, texts);
  }

  // ---------------------------------------------------------------- one turn

  lemma ObserveSays<W>(g: Game<W>, w: W, s: Session, b: Lane<W>, id: nat, notify: bool)
    requires id in b.sessions && Tracks(g, w, b) && Said(s, b.sessions[id], Voice(g, w, b.acts, id))
    ensures var c := Observe(g, b, id, notify);
            Tracks(g, w, c) && Said(s, c.sessions[id], Voice(g, w, c.acts, id))
  {
    ObserveTracks(g, w, b, id, notify);
    var t := b.sessions[id];
    if t.conn.room.Some? {
      var act := Look(t.saved.scene, t.conn.room.value, notify);
      VoiceNext(g, w, b.acts, act, id);
      var c := Observe(g, b, id, notify);
      SaidMore(s, t, c.sessions[id], Voice(g, w, b.acts, id), ActVoice(g, b.world, act, id));
    }
    hide WriteAll, Voice, ReplayActs;
  }

  lemma ApplySays<W>(g: Game<W>, w: W, s: Session, b: Lane<W>, id: nat, e: Effect<W>, act: Act)
    requires id in b.sessions && Tracks(g, w, b) && Said(s, b.sessions[id], Voice(g, w, b.acts, id))
    requires e.world == ActWorld(g, b.world, act) && e.mail == ActMail(g, b.world, act) && !act.Look?
    ensures var c := Apply(b, id, e, act).0;
            Tracks(g, w, c) && Said(s, c.sessions[id], Voice(g, w, c.acts, id))
  {
    ApplyTracks(g, w, b, id, e, act);
    VoiceNext(g, w, b.acts, act, id);
    InboxAddressed(e.mail, id);
    var t := b.sessions[id];
    var c := Apply(b, id, e, act).0;
    var moved := t.(conn := t.conn.(room := e.room, view := e.view));
    assert c.sessions[id] == WriteAll(moved, Inbox(e.mail, id)) by {
      hide WriteAll, Inbox;
    }
    WriteSameBox(moved, t, Inbox(e.mail, id));
    SaidMore(s, t, c.sessions[id], Voice(g, w, b.acts, id), Addressed(e.mail, id));
    hide WriteAll, Voice, ReplayActs, Apply;
  }

  lemma SaidStart<W>(g: Game<W>, lane: Lane<W>, id: nat)
    requires id in lane.sessions && lane.acts == []
    ensures Tracks(g, lane.world, lane) && Said(lane.sessions[id], lane.sessions[id], Voice(g, lane.world, lane.acts, id))
  {
  }

  lemma SaidOn(s: Session, t: Session, u: Session, texts: seq<string>)
    requires Said(s, t, texts) && SameBox(t.saved, u.saved)
    ensures Said(s, u, texts)
  {
  }

  // The requester of a command in play, up to the savepoint's end.
  ghost predicate PlayedOut<W>(g: Game<W>, w: W, s: Session, kept: Lane<W>, id: nat, outcome: Outcome)
    requires id in kept.sessions
  {
    var texts := Voice(g, w, kept.acts, id);
    var t := kept.sessions[id];
    && Tracks(g, w, kept)
    && (match outcome
        case Done => Said(s, t, texts)
        case Failed => Said(s, t, texts + [g.notice(Refused)])
        case Quit => t.saved.closed && exists before :: Said(s, before, texts) && SameBox(before.saved.(closed := true), t.saved))
  }

  lemma PlaySays<W>(g: Game<W>, env: Env, w: W, s: Session, b: Lane<W>, req: Request)
    requires req.id in b.sessions && req.kind == Input && Checked(env.users, b.sessions[req.id])
    requires b.sessions[req.id].conn.phase.InGame? && b.sessions[req.id].conn.character.Some?
    requires Tracks(g, w, b) && Said(s, b.sessions[req.id], Voice(g, w, b.acts, req.id))
    ensures var c := Perform(g, env, b, req).0;
            Tracks(g, w, c) && Said(s, c.sessions[req.id], Voice(g, w, c.acts, req.id))
  {
    hide Apply, Present, Said, Tracks, Voice, Active, FollowIntent, Write;
    var present := Present(b, req.id);
    ApplySays(g, w, s, b, req.id, g.play(b.world, present, req.id, req.line), Play(present, req.id, req.line));
  }

  lemma KeepSays<W>(g: Game<W>, w: W, s: Session, before: Lane<W>, after: Lane<W>, outcome: Outcome, id: nat)
    requires id in before.sessions && after.sessions.Keys == before.sessions.Keys
    requires Tracks(g, w, before) && Said(s, before.sessions[id], Voice(g, w, before.acts, id))
    requires Tracks(g, w, after) && Said(s, after.sessions[id], Voice(g, w, after.acts, id))
    ensures PlayedOut(g, w, s, Keep(g, before, after, outcome, id), id, outcome)
  {
    if outcome == Failed {
      var undone := RollBack(before, after.players, id);
      SaidOn(s, before.sessions[id], undone.sessions[id], Voice(g, w, before.acts, id));
      var kept := Tell(undone, id, [g.notice(Refused)]);
      SaidMore(s, undone.sessions[id], kept.sessions[id], Voice(g, w, before.acts, id), [g.notice(Refused)]);
    }
    hide WriteAll, Voice, Said, ReplayActs;
  }

  lemma ExecuteSays<W>(g: Game<W>, env: Env, lane: Lane<W>, req: Request)
    requires req.id in lane.sessions && lane.acts == [] && req.kind == Input && Checked(env.users, lane.sessions[req.id])
    requires lane.sessions[req.id].conn.phase.InGame? && lane.sessions[req.id].conn.character.Some?
    ensures var (kept, outcome) := Execute(g, env, lane, req, true);
            PlayedOut(g, lane.world, lane.sessions[req.id], kept, req.id, outcome)
  {
    hide Perform, Observe, Said, Tracks, Voice, Keep, PlayedOut;
    var id := req.id;
    var s := lane.sessions[id];
    SaidStart(g, lane, id);
    ObserveSays(g, lane.world, s, lane, id, true);
    ObserveSteps(g, lane, id, true);
    var seen := Observe(g, lane, id, true);
    var before := CaptureAll(seen);
    SaidOn(s, seen.sessions[id], before.sessions[id], Voice(g, lane.world, seen.acts, id));
    SameTracks(g, lane.world, seen, before);
    PlaySays(g, env, lane.world, s, before, req);
    var (after, outcome) := Perform(g, env, before, req);
    KeepSays(g, lane.world, s, before, after, outcome, id);
    Sequenced(g, lane.world, s, Keep(g, before, after, outcome, id), id, outcome, req.sequence);
  }

  lemma SameTracks<W>(g: Game<W>, w: W, a: Lane<W>, b: Lane<W>)
    requires Tracks(g, w, a) && b.world == a.world && b.acts == a.acts
    ensures Tracks(g, w, b)
  {
  }

  lemma Sequenced<W>(g: Game<W>, w: W, s: Session, kept: Lane<W>, id: nat, outcome: Outcome, sequence: nat)
    requires id in kept.sessions && PlayedOut(g, w, s, kept, id, outcome)
    ensures PlayedOut(g, w, s, kept.(sessions := kept.sessions[id := kept.sessions[id].(sequence := sequence)]), id, outcome)
  {
    hide Voice, ReplayActs, WriteAll;
  }

  // The texts around a refusal: what the first n calls said, the refusal, and the rest.
  function Around<W>(g: Game<W>, w: W, acts: seq<Act>, id: nat, n: nat): seq<string>
    requires n <= |acts|
  {
    Voice(g, w, acts[..n], id) + [g.notice(Refused)] + Voice(g, ReplayActs(g, w, acts[..n]), acts[n..], id)
  }

  lemma VoiceOne<W>(g: Game<W>, w: W, act: Act, id: nat)
    ensures Voice(g, w, [act], id) == ActVoice(g, w, act, id) && Voice(g, w, [], id) == []
  {
    assert [act][..0] == [];
    assert [] + ActVoice(g, w, act, id) == ActVoice(g, w, act, id);
  }

  lemma LookSays<W>(g: Game<W>, s: Session, b: Lane<W>, id: nat, texts: seq<string>) returns (look: seq<Act>)
    requires id in b.sessions && Said(s, b.sessions[id], texts)
    ensures var c := Observe(g, b, id, false);
            c.acts == b.acts + look && Said(s, c.sessions[id], texts + Voice(g, b.world, look, id))
  {
    hide WriteAll, Voice, Said;
    var t := b.sessions[id];
    look := [];
    assert texts + [] == texts && b.acts + [] == b.acts;
    VoiceOne(g, b.world, Look("", 0, false), id);
    if t.conn.room.Some? {
      var act := Look(t.saved.scene, t.conn.room.value, false);
      look := [act];
      VoiceOne(g, b.world, act, id);
      SaidMore(s, t, Observe(g, b, id, false).sessions[id], texts, ActVoice(g, b.world, act, id));
    }
  }

  lemma {:induction false} ReplayJoin<W>(g: Game<W>, w: W, a: seq<Act>, b: seq<Act>)
    ensures ReplayActs(g, w, a + b) == ReplayActs(g, ReplayActs(g, w, a), b)
  {
    if b == [] {
      assert a + b == a;
    } else {
      var n := |b| - 1;
      ReplayJoin(g, w, a, b[..n]);
      assert (a + b)[..|a + b| - 1] == a + b[..n];
    }
  }

  lemma VoiceStep<W>(g: Game<W>, w: W, a: seq<Act>, b: seq<Act>, act: Act, id: nat)
    requires Voice(g, w, a + b, id) == Voice(g, w, a, id) + Voice(g, ReplayActs(g, w, a), b, id)
    ensures Voice(g, w, a + b + [act], id) == Voice(g, w, a, id) + Voice(g, ReplayActs(g, w, a), b + [act], id)
  {
    hide Voice, ReplayActs, ActVoice;
    ReplayJoin(g, w, a, b);
    VoiceNext(g, w, a + b, act, id);
    VoiceNext(g, ReplayActs(g, w, a), b, act, id);
  }

  lemma {:induction false} VoiceJoin<W>(g: Game<W>, w: W, a: seq<Act>, b: seq<Act>, id: nat)
    ensures Voice(g, w, a + b, id) == Voice(g, w, a, id) + Voice(g, ReplayActs(g, w, a), b, id)
  {
    if b == [] {
      VoiceNone(g, w, a, id);
    } else {
      hide Voice, ReplayActs, ActVoice;
      var n := |b| - 1;
      VoiceJoin(g, w, a, b[..n], id);
      VoiceStep(g, w, a, b[..n], b[n], id);
      Regroup(a, b);
    }
  }

  lemma VoiceNone<W>(g: Game<W>, w: W, a: seq<Act>, id: nat)
    ensures Voice(g, w, a + [], id) == Voice(g, w, a, id) + Voice(g, ReplayActs(g, w, a), [], id)
  {
    assert a + [] == a;
    var texts := Voice(g, w, a, id);
    assert Voice(g, ReplayActs(g, w, a), [], id) == [];
    hide Voice, ReplayActs;
    assert texts + [] == texts;
  }

  lemma Regroup(a: seq<Act>, b: seq<Act>)
    requires b != []
    ensures b[..|b| - 1] + [b[|b| - 1]] == b && a + b[..|b| - 1] + [b[|b| - 1]] == a + b
  {
  }

  // What a command in play has told its own session by the end of the turn.
  ghost predicate Answered<W>(g: Game<W>, w: W, s: Session, f: Session, acts: seq<Act>, id: nat, outcome: Outcome) {
    match outcome
    case Done => Said(s, f, Voice(g, w, acts, id))
    case Failed => exists n :: 0 <= n <= |acts| && Said(s, f, Around(g, w, acts, id, n))
    case Quit => f.saved.closed && exists before :: Said(s, before, Voice(g, w, acts, id)) && SameBox(before.saved.(closed := true), f.saved)
  }

  lemma ReportSays<W>(g: Game<W>, w: W, s: Session, b: Lane<W>, id: nat, outcome: Outcome)
    requires id in b.sessions && PlayedOut(g, w, s, b, id, outcome)
    ensures Answered(g, w, s, b.sessions[id], b.acts, id, outcome)
    ensures outcome != Quit ==>
              var c := Observe(g, b, id, false); Answered(g, w, s, c.sessions[id], c.acts, id, outcome)
  {
    var texts := Voice(g, w, b.acts, id);
    if outcome == Done {
      var look := LookSays(g, s, b, id, texts);
      VoiceJoin(g, w, b.acts, look, id);
    } else if outcome == Failed {
      var n := |b.acts|;
      assert b.acts[..n] == b.acts && b.acts[n..] == [];
      assert texts + [g.notice(Refused)] + [] == texts + [g.notice(Refused)];
      assert Said(s, b.sessions[id], Around(g, w, b.acts, id, n));
      var look := LookSays(g, s, b, id, texts + [g.notice(Refused)]);
      var c := Observe(g, b, id, false);
      assert c.acts[..n] == b.acts && c.acts[n..] == look;
      assert Said(s, c.sessions[id], Around(g, w, c.acts, id, n));
    }
    hide WriteAll, Said, Observe, Voice;
  }

  lemma TurnSays<W>(g: Game<W>, env: Env, lane: Lane<W>, req: Request, wasClosed: bool)
    requires req.id in lane.sessions && lane.acts == [] && req.kind == Input && Checked(env.users, lane.sessions[req.id])
    requires lane.sessions[req.id].conn.phase.InGame? && lane.sessions[req.id].conn.character.Some?
    requires IsFresh(lane.sessions[req.id], req.sequence)
    ensures var t := Turn(g, env, lane, req, wasClosed);
            t.outcome.Some?
            && Answered(g, lane.world, lane.sessions[req.id], t.lane.sessions[req.id], t.lane.acts, req.id, t.outcome.value)
  {
    hide Execute, Observe, PlayedOut, Voice, Said, Answered, Checked, Depart;
    var id := req.id;
    var s := lane.sessions[id];
    ExecuteSays(g, env, lane, req);
    var (ran, outcome) := Execute(g, env, lane, req, true);
    var departs := !wasClosed && ran.sessions[id].saved.closed;
    DepartActs(g, ran, id, s.conn.character.value);
    DepartSteps(g, ran, id, s.conn.character.value);
    var told := if departs then Depart(g, ran, id, s.conn.character.value) else ran;
    DepartedOut(g, lane.world, s, ran, told, id, outcome);
    ReportSays(g, lane.world, s, told, id, outcome);
    QuitCloses(g, lane.world, s, told, id, outcome);
    var open := !told.sessions[id].saved.closed && told.sessions[id].conn.phase.InGame?;
    var done := if open then Observe(g, told, id, false) else told;
    var f := Turn(g, env, lane, req, wasClosed).lane.sessions[id];
    assert Turn(g, env, lane, req, wasClosed).lane.acts == done.acts && SameBox(f.saved, done.sessions[id].saved);
    AnsweredOn(g, lane.world, s, done.sessions[id], f, done.acts, id, outcome);
  }

  lemma QuitCloses<W>(g: Game<W>, w: W, s: Session, b: Lane<W>, id: nat, outcome: Outcome)
    requires id in b.sessions && PlayedOut(g, w, s, b, id, outcome)
    ensures outcome == Quit ==> b.sessions[id].saved.closed
  {
  }

  lemma DepartedOut<W>(g: Game<W>, w: W, s: Session, a: Lane<W>, b: Lane<W>, id: nat, outcome: Outcome)
    requires id in a.sessions && id in b.sessions && PlayedOut(g, w, s, a, id, outcome)
    requires b.world == a.world && b.acts == a.acts && b.sessions[id] == a.sessions[id]
    ensures PlayedOut(g, w, s, b, id, outcome)
  {
    hide Voice, Said, ReplayActs;
  }

  lemma AnsweredOn<W>(g: Game<W>, w: W, s: Session, t: Session, f: Session, acts: seq<Act>, id: nat, outcome: Outcome)
    requires Answered(g, w, s, t, acts, id, outcome) && SameBox(t.saved, f.saved)
    ensures Answered(g, w, s, f, acts, id, outcome)
  {
    hide Voice, WriteAll, Around;
    if outcome == Failed {
      var n :| 0 <= n <= |acts| && Said(s, t, Around(g, w, acts, id, n));
      assert Said(s, f, Around(g, w, acts, id, n));
    }
  }

  // ---------------------------------------------------------------- what is committed

  // In play a requester is heard as it is stored, acknowledged outputs apart.
  lemma OpensInPlay<W>(g: Game<W>, env: Env, world: W, rows: map<nat, Row>, sessions: map<nat, Session>, req: Request)
    requires Loaded(rows, sessions, req) && RowsOk(rows)
    ensures var r := Start(rows, req);
            var s := OpeningSession(g, env, world, sessions, req);
            !s.saved.closed && s.conn.phase.InGame? ==>
              && s.saved == r.saved.(output := Trim(r.saved.output, req.ack)) && s.conn == r.saved.conn
              && Checked(env.users, s) && Size(s.saved.output) <= OUTBOX_LIMIT
  {
    StartOk(rows, req);
    TrimKeeps(Start(rows, req).saved, req.ack);
    OpeningConn(g, env, world, rows, sessions, req);
    var s0 := Acknowledge(Hangup(sessions[req.id], req), req.ack);
    assert Shape(s0.saved);
    RecheckFacts(g, env.users, s0);
    AdmittedAsIs(g, Base(g, env, sessions, req), req.id);
    hide Admit, Shape, Recheck, Active, Trim;
  }

  lemma AdmittedAsIs<W>(g: Game<W>, base: map<nat, Session>, id: nat)
    requires id in base
    ensures Admit(g, base, id) == base[id] || !Admit(g, base, id).conn.phase.InGame?
  {
  }

  // What a line typed in play has added to the outbox of its session: all the texts, in
  // order, or those that fit before the first that does not.
  ghost predicate Replied<W>(g: Game<W>, w: W, c: Checkpoint, d: Checkpoint, run: Run) {
    match run.outcome
    case Done => Heard(c, d, Voice(g, w, run.acts, run.id))
    case Failed => exists n :: 0 <= n <= |run.acts| && Heard(c, d, Around(g, w, run.acts, run.id, n))
    case Quit => d.closed && exists open: bool :: Heard(c, d.(closed := open), Voice(g, w, run.acts, run.id))
  }

  lemma AnsweredReplied<W>(g: Game<W>, w: W, s: Session, f: Session, run: Run, d: Checkpoint)
    requires Answered(g, w, s, f, run.acts, run.id, run.outcome) && Size(s.saved.output) <= OUTBOX_LIMIT && SameBox(f.saved, d)
    ensures Replied(g, w, s.saved, d, run)
  {
    hide Said, Heard, Voice, Around, Size;
    if run.outcome == Done {
      SaidHeard(s, f, Voice(g, w, run.acts, run.id));
      HeardBox(s.saved, f.saved, s.saved, d, Voice(g, w, run.acts, run.id));
    } else if run.outcome == Failed {
      var n :| 0 <= n <= |run.acts| && Said(s, f, Around(g, w, run.acts, run.id, n));
      SaidHeard(s, f, Around(g, w, run.acts, run.id, n));
      HeardBox(s.saved, f.saved, s.saved, d, Around(g, w, run.acts, run.id, n));
    } else {
      var before :| Said(s, before, Voice(g, w, run.acts, run.id)) && SameBox(before.saved.(closed := true), f.saved);
      SaidHeard(s, before, Voice(g, w, run.acts, run.id));
      var e := d.(closed := before.saved.closed);
      HeardBox(s.saved, before.saved, s.saved, e, Voice(g, w, run.acts, run.id));
    }
  }

  // A line typed in play is answered with the report on the room before it, the mail the
  // command addressed to its player and the report after it; a failed one with the
  // reports around a refusal; one that quits ends the session after what it had to say.
  lemma RequesterHears<W>(g: Game<W>, env: Env, db: Database<W>, req: Request)
    requires RowsOk(db.rows)
    ensures var r := Dispatch(g, env, db, req);
            var start := Start(Sweep(db.rows, env.now), req);
            r.Committed? && r.run.Some? && r.run.value.kind == Input && r.run.value.from.InGame?
            && start.saved.conn.character.Some? ==>
              && req.id in r.db.rows
              && Replied(g, db.world, start.saved.(output := Trim(start.saved.output, req.ack)), r.db.rows[req.id].saved, r.run.value)
  {
    hide Dispatch, Serve, Sweep, Replied, Shape, Trim;
    DispatchServes(g, env, db, req);
    SweepOk(db.rows, env.now);
    var rows := Sweep(db.rows, env.now);
    var r := Dispatch(g, env, db, req);
    if r.Committed? && r.run.Some? && r.run.value.kind == Input && r.run.value.from.InGame? && Start(rows, req).saved.conn.character.Some? {
      ServeReplies(g, env, db, rows, Sessions(rows, req, env.now), req);
    }
  }

  lemma RecordOf<W>(g: Game<W>, env: Env, db: Database<W>, rows: map<nat, Row>, sessions: map<nat, Session>, req: Request)
    requires Loaded(rows, sessions, req) && Serve(g, env, db, rows, sessions, req).Committed?
    ensures Serve(g, env, db, rows, sessions, req).run ==
            Record(req, OpeningSession(g, env, db.world, sessions, req), Closing(g, env, db.world, sessions, req))
  {
    hide Turn, Begin, Base, Store, Unique, Cut, Conflict, Acceptable;
  }

  lemma ServeReplies<W>(g: Game<W>, env: Env, db: Database<W>, rows: map<nat, Row>, sessions: map<nat, Session>, req: Request)
    requires Loaded(rows, sessions, req) && RowsOk(rows) && Start(rows, req).saved.conn.character.Some?
    requires var r := Serve(g, env, db, rows, sessions, req);
             r.Committed? && r.run.Some? && r.run.value.kind == Input && r.run.value.from.InGame?
    ensures var r := Serve(g, env, db, rows, sessions, req);
            var start := Start(rows, req);
            && req.id in r.db.rows
            && Replied(g, db.world, start.saved.(output := Trim(start.saved.output, req.ack)), r.db.rows[req.id].saved, r.run.value)
  {
    RecordOf(g, env, db, rows, sessions, req);
    ServeUnfold(g, env, db, rows, sessions, req);
    ClosingTurned(g, env, rows, sessions, req, db.world);
    OpensInPlay(g, env, db.world, rows, sessions, req);
    OpeningActs(g, env, db.world, sessions, req);
    var lane := Opening(g, env, db.world, sessions, req);
    var s, t := lane.sessions[req.id], Closing(g, env, db.world, sessions, req);
    var f := t.lane.sessions[req.id];
    hide Serve, Opening, Turn, Turned1, Trim, Shape, Answered, Replied, Checked, Size;
    TurnSays(g, env, lane, req, sessions[req.id].saved.closed);
    RequesterDirty(g, env, rows, sessions, req, db.world);
    var run := Serve(g, env, db, rows, sessions, req).run.value;
    AnsweredReplied(g, db.world, s, f, run, Serve(g, env, db, rows, sessions, req).db.rows[req.id].saved);
  }

  // The requester was trimmed, so it is always written.
  lemma RequesterDirty<W>(g: Game<W>, env: Env, rows: map<nat, Row>, sessions: map<nat, Session>, req: Request, world: W)
    requires Loaded(rows, sessions, req) && RowsOk(rows) && Acceptable(sessions[req.id], req)
    ensures var f := Closing(g, env, world, sessions, req).lane.sessions[req.id];
            f.dirty && Store(rows, Closing(g, env, world, sessions, req).lane.sessions, req.id, env.now)[req.id] == SaveRow(f, env.now)
  {
    StartOk(rows, req);
    RequesterBegins(g, env, rows, sessions, req, world);
    ClosingTurned(g, env, rows, sessions, req, world);
    hide Opening, Turn, Shape, Cut, SaveRow;
  }

  // ---------------------------------------------------------------- polls

  // A poll in play reports on the room, and renews the prompt if anything is pending.
  ghost predicate Polled<W>(g: Game<W>, w: W, s: Session, f: Session, acts: seq<Act>, id: nat) {
    exists e: Session ::
      Said(s, e, Voice(g, w, acts, id)) && Said(e, f, if e.saved.output != [] then [g.notice(Prompt)] else [])
  }

  lemma PollLooks<W>(g: Game<W>, lane: Lane<W>, b: Lane<W>, id: nat)
    requires id in lane.sessions && id in b.sessions && lane.acts == [] && b.acts == [] && b.world == lane.world
    requires SameBox(lane.sessions[id].saved, b.sessions[id].saved)
    ensures var c := LookAround(g, b, id, true);
            Polled(g, lane.world, lane.sessions[id], c.sessions[id], c.acts, id)
  {
    var s := lane.sessions[id];
    SaidStart(g, lane, id);
    SaidOn(s, s, b.sessions[id], Voice(g, lane.world, [], id));
    SameTracks(g, lane.world, lane, b);
    ObserveSays(g, lane.world, s, b, id, true);
    var seen := Observe(g, b, id, true);
    var e := seen.sessions[id];
    var c := LookAround(g, b, id, true);
    assert Said(e, c.sessions[id], if e.saved.output != [] then [g.notice(Prompt)] else []);
    hide Voice, WriteAll, Said, Observe;
  }

  lemma PollSays<W>(g: Game<W>, env: Env, lane: Lane<W>, req: Request, wasClosed: bool)
    requires req.id in lane.sessions && lane.acts == [] && req.kind == Poll
    requires lane.sessions[req.id].conn.phase.InGame? && IsFresh(lane.sessions[req.id], req.sequence)
    ensures var t := Turn(g, env, lane, req, wasClosed);
            t.outcome == Some(Done)
            && Polled(g, lane.world, lane.sessions[req.id], t.lane.sessions[req.id], t.lane.acts, req.id)
            && t.lane.sessions[req.id].conn == lane.sessions[req.id].conn
  {
    var id := req.id;
    var ran := Execute(g, env, lane, req, lane.sessions[id].conn.character.Some?).0;
    assert ran.sessions[id] == Capture(lane.sessions[id]).(sequence := req.sequence) && ran.acts == [] && ran.world == lane.world;
    hide LookAround, Execute, Polled, Depart;
    PollLooks(g, lane, ran, id);
    LookAroundSteps(g, ran, id, true);
    var done := LookAround(g, ran, id, true);
    PolledOn(g, lane.world, lane.sessions[id], done.sessions[id], Turn(g, env, lane, req, wasClosed).lane.sessions[id], done.acts, id);
  }

  lemma PolledOn<W>(g: Game<W>, w: W, s: Session, f: Session, t: Session, acts: seq<Act>, id: nat)
    requires Polled(g, w, s, f, acts, id) && SameBox(f.saved, t.saved)
    ensures Polled(g, w, s, t, acts, id)
  {
    hide Voice, WriteAll;
    var e: Session :| Said(s, e, Voice(g, w, acts, id)) && Said(e, f, if e.saved.output != [] then [g.notice(Prompt)] else []);
    assert Said(e, t, if e.saved.output != [] then [g.notice(Prompt)] else []);
  }

  ghost predicate PollReplied<W>(g: Game<W>, w: W, c: Checkpoint, d: Checkpoint, run: Run) {
    exists e: Checkpoint ::
      Heard(c, e, Voice(g, w, run.acts, run.id)) && Heard(e, d, if e.output != [] then [g.notice(Prompt)] else [])
  }

  lemma PolledReplied<W>(g: Game<W>, w: W, s: Session, f: Session, run: Run, d: Checkpoint)
    requires Polled(g, w, s, f, run.acts, run.id) && Shape(s.saved) && SameBox(f.saved, d)
    ensures PollReplied(g, w, s.saved, d, run)
  {
    var texts := Voice(g, w, run.acts, run.id);
    var e: Session :| Said(s, e, texts) && Said(e, f, if e.saved.output != [] then [g.notice(Prompt)] else []);
    WriteAllQuiet(s, texts);
    hide Voice, Heard;
    SaidHeard(s, e, texts);
    SaidHeard(e, f, if e.saved.output != [] then [g.notice(Prompt)] else []);
    HeardBox(e.saved, f.saved, e.saved, d, if e.saved.output != [] then [g.notice(Prompt)] else []);
    assert Heard(s.saved, e.saved, texts);
  }

  // A poll in play changes nothing but the outbox and the scene: it adds the report on the
  // room, and the prompt if anything is then pending.
  lemma PollHears<W>(g: Game<W>, env: Env, db: Database<W>, req: Request)
    requires RowsOk(db.rows)
    ensures var r := Dispatch(g, env, db, req);
            var start := Start(Sweep(db.rows, env.now), req);
            r.Committed? && r.run.Some? && r.run.value.kind == Poll && r.run.value.from.InGame? ==>
              && req.id in r.db.rows && r.run.value.outcome == Done && r.db.rows[req.id].saved.conn == start.saved.conn
              && PollReplied(g, db.world, start.saved.(output := Trim(start.saved.output, req.ack)), r.db.rows[req.id].saved, r.run.value)
  {
    hide Dispatch, Serve, Sweep, PollReplied, Shape, Trim;
    DispatchServes(g, env, db, req);
    SweepOk(db.rows, env.now);
    var rows := Sweep(db.rows, env.now);
    var r := Dispatch(g, env, db, req);
    if r.Committed? && r.run.Some? && r.run.value.kind == Poll && r.run.value.from.InGame? {
      ServePolls(g, env, db, rows, Sessions(rows, req, env.now), req);
    }
  }

  lemma ServePolls<W>(g: Game<W>, env: Env, db: Database<W>, rows: map<nat, Row>, sessions: map<nat, Session>, req: Request)
    requires Loaded(rows, sessions, req) && RowsOk(rows)
    requires var r := Serve(g, env, db, rows, sessions, req);
             r.Committed? && r.run.Some? && r.run.value.kind == Poll && r.run.value.from.InGame?
    ensures var r := Serve(g, env, db, rows, sessions, req);
            var start := Start(rows, req);
            && req.id in r.db.rows && r.run.value.outcome == Done && r.db.rows[req.id].saved.conn == start.saved.conn
            && PollReplied(g, db.world, start.saved.(output := Trim(start.saved.output, req.ack)), r.db.rows[req.id].saved, r.run.value)
  {
    RecordOf(g, env, db, rows, sessions, req);
    ServeUnfold(g, env, db, rows, sessions, req);
    ClosingTurned(g, env, rows, sessions, req, db.world);
    OpensInPlay(g, env, db.world, rows, sessions, req);
    OpeningActs(g, env, db.world, sessions, req);
    StartOk(rows, req);
    TrimKeeps(Start(rows, req).saved, req.ack);
    var lane := Opening(g, env, db.world, sessions, req);
    var s, t := lane.sessions[req.id], Closing(g, env, db.world, sessions, req);
    hide Serve, Opening, Turn, Turned1, Trim, Shape, Polled, PollReplied, Checked, Size;
    PollSays(g, env, lane, req, sessions[req.id].saved.closed);
    RequesterDirty(g, env, rows, sessions, req, db.world);
    var run := Serve(g, env, db, rows, sessions, req).run.value;
    PolledReplied(g, db.world, s, t.lane.sessions[req.id], run, Serve(g, env, db, rows, sessions, req).db.rows[req.id].saved);
  }
}
