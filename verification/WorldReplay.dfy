// The world is what the executed commands made of it: replays, retries, closes and
// failed commands leave no mark on it.
module WorldReplay {
  import opened Wrappers
  import opened Terminalwire
  import opened CoreSession
  import opened CoreDispatch
  import opened DispatchFacts
  import opened RowFacts
  import opened Edge
  import opened Protocol
  import opened Honest
  import opened Acts

  function ActWorld<W>(g: Game<W>, w: W, act: Act): W {
    match act
    case Look(scene, room, notify) => g.observe(w, scene, room, notify).world
    case Play(present, id, line) => g.play(w, present, id, line).world
    case Enter(present, id) => g.enter(w, present, id).world
  }

  function ReplayActs<W>(g: Game<W>, w: W, acts: seq<Act>): W {
    if acts == [] then w else ActWorld(g, ReplayActs(g, w, acts[..|acts| - 1]), acts[|acts| - 1])
  }

  // The reference machine: only the executed commands, each once, one after another.
  function Replay<W>(g: Game<W>, w: W, log: seq<Run>): W {
    if log == [] then w else ReplayActs(g, Replay(g, w, log[..|log| - 1]), log[|log| - 1].acts)
  }

  ghost predicate Tracks<W>(g: Game<W>, w: W, lane: Lane<W>) {
    lane.world == ReplayActs(g, w, lane.acts)
  }

  lemma ActAppend<W>(g: Game<W>, w: W, acts: seq<Act>, act: Act)
    ensures ReplayActs(g, w, acts + [act]) == ActWorld(g, ReplayActs(g, w, acts), act)
  {
    assert (acts + [act])[..|acts|] == acts;
  }

  lemma ApplyTracks<W>(g: Game<W>, w: W, lane: Lane<W>, id: nat, e: Effect<W>, act: Act)
    requires id in lane.sessions && Tracks(g, w, lane) && e.world == ActWorld(g, lane.world, act)
    ensures Tracks(g, w, Apply(lane, id, e, act).0)
  {
    ActAppend(g, w, lane.acts, act);
  }

  lemma IntentTracks<W>(g: Game<W>, env: Env, w: W, lane: Lane<W>, id: nat, intent: Intent)
    requires id in lane.sessions && Tracks(g, w, lane)
    ensures Tracks(g, w, FollowIntent(g, env, lane, id, intent).0)
  {
    hide Apply, Taken, Present;
    if intent.Choose? && lane.sessions[id].conn.phase.Authenticated? {
      SelectTracks(g, w, lane, id, intent.choice);
    }
  }

  lemma SelectTracks<W>(g: Game<W>, w: W, lane: Lane<W>, id: nat, choice: nat)
    requires id in lane.sessions && Tracks(g, w, lane)
    ensures Tracks(g, w, SelectCharacter(g, lane, id, choice).0)
  {
    hide Apply, Taken, Present;
    var c := lane.sessions[id].conn;
    if c.credential.Some? {
      var mine := g.characters(lane.world, c.credential.value.user);
      if 1 <= choice <= |mine| && g.home(lane.world, mine[choice - 1]).Some? && !Taken(lane.sessions, id, mine[choice - 1]) {
        var home := g.home(lane.world, mine[choice - 1]);
        var entered := SetConn(lane, id, c.(character := Some(mine[choice - 1]), room := home, phase := InGame));
        var listed := entered.(players := entered.players + {id});
        ApplyTracks(g, w, listed, id, g.enter(lane.world, Present(listed, id), id).(room := home), Enter(Present(listed, id), id));
      }
    }
  }

  lemma PerformTracks<W>(g: Game<W>, env: Env, w: W, lane: Lane<W>, req: Request)
    requires req.id in lane.sessions && Tracks(g, w, lane)
    ensures Tracks(g, w, Perform(g, env, lane, req).0)
  {
    hide Apply, FollowIntent, Present;
    var s := lane.sessions[req.id];
    if req.kind == Input {
      if s.conn.phase.InGame? && s.conn.character.Some? {
        ApplyTracks(g, w, lane, req.id, g.play(lane.world, Present(lane, req.id), req.id, req.line),
                    Play(Present(lane, req.id), req.id, req.line));
      } else {
        IntentTracks(g, env, w, lane, req.id, g.intent(s.conn, req.line));
      }
    }
  }

  lemma ObserveTracks<W>(g: Game<W>, w: W, lane: Lane<W>, id: nat, notify: bool)
    requires id in lane.sessions && Tracks(g, w, lane)
    ensures Tracks(g, w, Observe(g, lane, id, notify))
  {
    var s := lane.sessions[id];
    if s.conn.room.Some? {
      ActAppend(g, w, lane.acts, Look(s.saved.scene, s.conn.room.value, notify));
    }
  }

  lemma ExecuteTracks<W>(g: Game<W>, env: Env, w: W, lane: Lane<W>, req: Request, wasPlaying: bool)
    requires req.id in lane.sessions && Tracks(g, w, lane)
    ensures Tracks(g, w, Execute(g, env, lane, req, wasPlaying).0)
  {
    hide Perform, Observe;
    ObserveTracks(g, w, lane, req.id, true);
    var before := CaptureAll(if req.kind == Input && wasPlaying then Observe(g, lane, req.id, true) else lane);
    PerformTracks(g, env, w, before, req);
  }

  lemma TurnTracks<W>(g: Game<W>, env: Env, lane: Lane<W>, req: Request, wasClosed: bool)
    requires req.id in lane.sessions && lane.acts == []
    ensures Tracks(g, lane.world, Turn(g, env, lane, req, wasClosed).lane)
  {
    hide Execute, Observe, Depart;
    var id := req.id;
    var c := lane.sessions[id].conn;
    var wasPlaying := c.phase.InGame? && c.character.Some?;
    var go := IsFresh(lane.sessions[id], req.sequence);
    assert Tracks(g, lane.world, lane);
    ExecuteTracks(g, env, lane.world, lane, req, wasPlaying);
    var ran := if go then Execute(g, env, lane, req, wasPlaying).0 else lane;
    var departs := !wasClosed && ran.sessions[id].saved.closed && wasPlaying;
    if departs {
      DepartTracks(g, lane.world, ran, id, c.character.value);
    }
    var told := if departs then Depart(g, ran, id, c.character.value) else ran;
    ObserveTracks(g, lane.world, told, id, req.kind == Poll);
  }

  lemma DepartTracks<W>(g: Game<W>, w: W, lane: Lane<W>, id: nat, character: nat)
    requires Tracks(g, w, lane)
    ensures Tracks(g, w, Depart(g, lane, id, character))
  {
  }

  lemma ServeTracks<W>(g: Game<W>, env: Env, db: Database<W>, rows: map<nat, Row>, sessions: map<nat, Session>, req: Request)
    requires Loaded(rows, sessions, req) && RowsOk(rows)
    requires Serve(g, env, db, rows, sessions, req).Committed?
    ensures var r := Serve(g, env, db, rows, sessions, req);
            r.db.world == if r.run.Some? then ReplayActs(g, db.world, r.run.value.acts) else db.world
  {
    hide Base, Turn, Cut, Unique, RowsOk, Loaded, Store, Acceptable, Conflict;
    var lane := Begin(g, db.world, Base(g, env, sessions, req), req.id);
    TurnTracks(g, env, lane, req, sessions[req.id].saved.closed);
    ClosingTurned(g, env, rows, sessions, req, db.world);
  }

  // A dispatch changes the world only by what the command it executed kept, and that is
  // what its own request called for.
  lemma DispatchTracks<W>(g: Game<W>, env: Env, db: Database<W>, req: Request)
    requires RowsOk(db.rows)
    ensures var r := Dispatch(g, env, db, req);
            r.Committed? ==>
              if r.run.Some? then r.db.world == ReplayActs(g, db.world, r.run.value.acts) && Faithful(r.run.value)
              else r.db.world == db.world
  {
    hide Serve, Faithful;
    DispatchActs(g, env, db, req);
    if Dispatch(g, env, db, req).Committed? {
      var rows := Sweep(db.rows, env.now);
      var sessions := Load(rows, req.id, env.now);
      var loaded := if req.id in sessions then sessions else sessions[req.id := NewSession(req.edge)];
      assert Loaded(rows, loaded, req);
      ServeTracks(g, env, db, rows, loaded, req);
    }
  }

  // The world of the reference machine, and a log whose every entry did what its own
  // session asked for, once.
  ghost predicate Replayed<W>(g: Game<W>, world: W, s: System<W>) {
    && s.db.world == Replay(g, world, s.log)
    && forall k :: 0 <= k < |s.log| ==> Faithful(s.log[k])
  }

  lemma ReplayStep<W>(g: Game<W>, world: W, s: System<W>, l: Label)
    requires Inv(s) && s.term.req.id in s.term.written && s.term.req.id in s.term.script
    requires Replayed(g, world, s)
    ensures Replayed(g, world, After(g, s, l))
  {
    hide Dispatch, SessionsOk, HonestOk, Proceed, Extend, Faithful;
    if l.Deliver? && Dispatch(g, l.env, s.db, l.req).Committed? {
      SweptRows(s, l.env.now);
      DispatchTracks(g, l.env, s.db, l.req);
      var r := Dispatch(g, l.env, s.db, l.req);
      if r.run.Some? {
        assert (s.log + [r.run.value])[..|s.log|] == s.log;
      }
    }
  }

  lemma {:induction false} RunReplays<W>(g: Game<W>, world: W, s: System<W>, ls: seq<Label>, t: System<W>)
    requires Inv(s) && Reaches(g, s, ls, t) && Replayed(g, world, s)
    ensures Replayed(g, world, t)
    decreases |ls|
  {
    hide Inv, Enabled, After, Replayed;
    if ls != [] {
      StepInv(g, s, ls[0]);
      ReplayStep(g, world, s, ls[0]);
      RunReplays(g, world, After(g, s, ls[0]), ls[1..], t);
    }
  }

  // Exactly-once refinement: after any run the world equals that of the reference
  // machine fed the logged commands, each once, and a logged line was played exactly
  // once, by its own session: the acts of a run are one look at most, its own line or
  // entry, and one look at most.
  lemma WorldIsReplayOfLog<W>(g: Game<W>, world: W, edge: nat, id: nat, ls: seq<Label>, t: System<W>)
    requires Reaches(g, Initial(world, edge, id), ls, t)
    ensures t.db.world == Replay(g, world, t.log)
    ensures forall k :: 0 <= k < |t.log| ==> Faithful(t.log[k])
  {
    hide Faithful;
    InitialInv(world, edge, id);
    RunReplays(g, world, Initial(world, edge, id), ls, t);
  }

  // The lines session j has played in the world, in order.
  function Played(acts: seq<Act>, j: nat): seq<string> {
    if acts == [] then []
    else Played(acts[..|acts| - 1], j) + if acts[|acts| - 1].Play? && acts[|acts| - 1].id == j then [acts[|acts| - 1].line] else []
  }

  function PlayedIn(log: seq<Run>, j: nat): seq<string> {
    if log == [] then [] else PlayedIn(log[..|log| - 1], j) + Played(log[|log| - 1].acts, j)
  }

  // The lines the runs of session j asked to play: typed in play, and not refused.
  function Typed(runs: seq<Run>): seq<string> {
    if runs == [] then []
    else
      var last := runs[|runs| - 1];
      Typed(runs[..|runs| - 1]) + if last.kind == Input && last.from.InGame? && last.outcome != Failed then [last.line] else []
  }

  lemma {:induction false} PlayedJoin(a: seq<Act>, b: seq<Act>, j: nat)
    ensures Played(a + b, j) == Played(a, j) + Played(b, j)
  {
    if b == [] {
      assert a + b == a;
    } else {
      PlayedJoin(a, b[..|b| - 1], j);
      assert (a + b)[..|a + b| - 1] == a + b[..|b| - 1];
    }
  }

  lemma GlancePlays(acts: seq<Act>, notify: bool, j: nat)
    requires Glance(acts, notify)
    ensures Played(acts, j) == []
  {
    if acts != [] {
      assert acts[..|acts| - 1] == [];
    }
  }

  lemma DeedPlays(run: Run, mid: seq<Act>, j: nat)
    requires Deed(run, mid)
    ensures Played(mid, j) == if run.id == j then Typed([run]) else []
  {
    assert [run][..0] == [];
    if mid != [] {
      assert mid[..|mid| - 1] == [];
    }
  }

  lemma FaithfulPlays(run: Run, j: nat)
    requires Faithful(run)
    ensures Played(run.acts, j) == if run.id == j then Typed([run]) else []
  {
    var pre, mid, post :| Composed(run, pre, mid, post);
    hide Played, Typed, Deed, Glance;
    PlayedJoin(pre + mid, post, j);
    PlayedJoin(pre, mid, j);
    GlancePlays(pre, true, j);
    GlancePlays(post, run.kind == Poll, j);
    DeedPlays(run, mid, j);
  }

  lemma TypedAppend(runs: seq<Run>, run: Run)
    ensures Typed(runs + [run]) == Typed(runs) + Typed([run])
  {
    assert (runs + [run])[..|runs|] == runs && [run][..0] == [];
  }

  lemma {:induction false} PlayedIsTyped(log: seq<Run>, j: nat)
    requires forall k :: 0 <= k < |log| ==> Faithful(log[k])
    ensures PlayedIn(log, j) == Typed(Runs(log, j))
  {
    hide Faithful;
    if log != [] {
      var before, last := log[..|log| - 1], log[|log| - 1];
      PlayedIsTyped(before, j);
      FaithfulPlays(last, j);
      assert log == before + [last];
      RunsAppend(before, last, j);
      TypedAppend(Runs(before, j), last);
    }
  }

  // The lines a session's player has played in the world are exactly the lines of its
  // executed inputs, in order, each once: none repeated, none of another session.
  lemma EachLinePlayedOnce<W>(g: Game<W>, world: W, edge: nat, id: nat, ls: seq<Label>, t: System<W>, j: nat)
    requires Reaches(g, Initial(world, edge, id), ls, t)
    ensures t.db.world == Replay(g, world, t.log)
    ensures PlayedIn(t.log, j) == Typed(Runs(t.log, j))
  {
    hide Faithful, Replay, PlayedIn, Typed;
    WorldIsReplayOfLog(g, world, edge, id, ls, t);
    PlayedIsTyped(t.log, j);
  }
}
