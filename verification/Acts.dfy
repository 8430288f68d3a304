// What a logged command did to the world: the acts recorded with it are those its own
// session, kind and line call for, each once, between at most one look before and after.
module Acts {
  import opened Wrappers
  import opened Terminalwire
  import opened CoreSession
  import opened CoreDispatch
  import opened DispatchFacts
  import opened RowFacts

  // At most one look at the room, which reports changes or only takes note of them.
  ghost predicate Glance(acts: seq<Act>, notify: bool) {
    |acts| <= 1 && forall k :: 0 <= k < |acts| ==> acts[k].Look? && acts[k].notify == notify
  }

  // A line typed in play is played once, by the session that sent it; a line typed at
  // character selection may enter the realm once; nothing else touches the world.
  ghost predicate Deed(run: Run, mid: seq<Act>) {
    if run.kind != Input || run.outcome == Failed then mid == []
    else if run.from.InGame? then |mid| == 1 && mid[0].Play? && mid[0].id == run.id && mid[0].line == run.line
    else mid == [] || (run.from.Authenticated? && |mid| == 1 && mid[0].Enter? && mid[0].id == run.id)
  }

  ghost predicate Composed(run: Run, pre: seq<Act>, mid: seq<Act>, post: seq<Act>) {
    && run.acts == pre + mid + post
    && Glance(pre, true) && Deed(run, mid) && Glance(post, run.kind == Poll)
    && (pre != [] ==> run.kind == Input && run.from.InGame?)
    && (post != [] ==> run.outcome != Quit)
  }

  ghost predicate Faithful(run: Run) {
    exists pre, mid, post :: Composed(run, pre, mid, post)
  }

  // ---------------------------------------------------------------- one command

  lemma ApplyActs<W>(lane: Lane<W>, id: nat, e: Effect<W>, act: Act)
    requires id in lane.sessions
    ensures Apply(lane, id, e, act).0.acts == lane.acts + [act] && Apply(lane, id, e, act).1 == e.outcome
  {
  }

  lemma SelectActs<W>(g: Game<W>, lane: Lane<W>, id: nat, choice: nat) returns (mid: seq<Act>)
    requires id in lane.sessions
    ensures SelectCharacter(g, lane, id, choice).0.acts == lane.acts + mid
    ensures mid == [] || (|mid| == 1 && mid[0].Enter? && mid[0].id == id)
  {
    hide Apply, Taken, Present;
    mid := [];
    var c := lane.sessions[id].conn;
    if c.credential.Some? {
      var mine := g.characters(lane.world, c.credential.value.user);
      if 1 <= choice <= |mine| && g.home(lane.world, mine[choice - 1]).Some? && !Taken(lane.sessions, id, mine[choice - 1]) {
        var home := g.home(lane.world, mine[choice - 1]);
        var entered := SetConn(lane, id, c.(character := Some(mine[choice - 1]), room := home, phase := InGame));
        var listed := entered.(players := entered.players + {id});
        var act := Enter(Present(listed, id), id);
        ApplyActs(listed, id, g.enter(lane.world, Present(listed, id), id).(room := home), act);
        mid := [act];
      }
    }
  }

  lemma IntentActs<W>(g: Game<W>, env: Env, lane: Lane<W>, id: nat, intent: Intent) returns (mid: seq<Act>)
    requires id in lane.sessions
    ensures FollowIntent(g, env, lane, id, intent).0.acts == lane.acts + mid
    ensures mid == [] || (lane.sessions[id].conn.phase.Authenticated? && |mid| == 1 && mid[0].Enter? && mid[0].id == id)
  {
    hide SelectCharacter;
    mid := [];
    if intent.Choose? && lane.sessions[id].conn.phase.Authenticated? {
      mid := SelectActs(g, lane, id, intent.choice);
    }
  }

  // The requester as the recheck admits it: signed in means with a valid credential.
  ghost predicate Checked(users: map<nat, User>, s: Session) {
    SignedIn(s.conn) ==> s.conn.credential.Some? && Active(users, s.conn.credential.value)
  }

  ghost function Ran(req: Request, from: Phase, outcome: Outcome, acts: seq<Act>): Run {
    Run(req.id, req.sequence, req.kind, req.line, from, outcome, acts)
  }

  lemma PerformActs<W>(g: Game<W>, env: Env, lane: Lane<W>, req: Request) returns (mid: seq<Act>)
    requires req.id in lane.sessions && Checked(env.users, lane.sessions[req.id])
    ensures var (after, outcome) := Perform(g, env, lane, req);
            && after.acts == lane.acts + mid
            && (outcome != Failed ==> Deed(Ran(req, lane.sessions[req.id].conn.phase, outcome, []), mid))
  {
    hide Apply, FollowIntent, Present, Active;
    var s := lane.sessions[req.id];
    mid := [];
    if req.kind == Input {
      if s.conn.phase.InGame? {
        if s.conn.character.Some? {
          var act := Play(Present(lane, req.id), req.id, req.line);
          ApplyActs(lane, req.id, g.play(lane.world, Present(lane, req.id), req.id, req.line), act);
          mid := [act];
        }
      } else if !s.conn.phase.Connected? {
        mid := IntentActs(g, env, lane, req.id, g.intent(s.conn, req.line));
      }
    }
  }

  lemma ObserveActs<W>(g: Game<W>, lane: Lane<W>, id: nat, notify: bool) returns (look: seq<Act>)
    requires id in lane.sessions
    ensures Observe(g, lane, id, notify).acts == lane.acts + look && Glance(look, notify)
  {
    var s := lane.sessions[id];
    look := if s.conn.room.Some? then [Look(s.saved.scene, s.conn.room.value, notify)] else [];
  }

  lemma KeepActs<W>(g: Game<W>, before: Lane<W>, after: Lane<W>, outcome: Outcome, id: nat)
    requires id in before.sessions && after.sessions.Keys == before.sessions.Keys
    ensures Keep(g, before, after, outcome, id).acts == if outcome == Failed then before.acts else after.acts
    ensures outcome == Quit ==> Keep(g, before, after, outcome, id).sessions[id].saved.closed
  {
    hide WriteAll;
  }

  lemma SeenActs<W>(g: Game<W>, lane: Lane<W>, id: nat, looks: bool) returns (pre: seq<Act>)
    requires id in lane.sessions && lane.acts == []
    ensures var before := CaptureAll(if looks then Observe(g, lane, id, true) else lane);
            before.acts == pre && Glance(pre, true) && (pre != [] ==> looks) && before.sessions[id].conn == lane.sessions[id].conn
  {
    pre := [];
    if looks {
      pre := ObserveActs(g, lane, id, true);
      hide Observe;
      ObserveSteps(g, lane, id, true);
    }
  }

  lemma ExecuteActs<W>(g: Game<W>, env: Env, lane: Lane<W>, req: Request, wasPlaying: bool) returns (pre: seq<Act>, mid: seq<Act>)
    requires req.id in lane.sessions && lane.acts == [] && Checked(env.users, lane.sessions[req.id])
    ensures var (kept, outcome) := Execute(g, env, lane, req, wasPlaying);
            && kept.acts == pre + mid && Glance(pre, true) && (pre != [] ==> req.kind == Input && wasPlaying)
            && Deed(Ran(req, lane.sessions[req.id].conn.phase, outcome, []), mid)
            && (outcome == Quit ==> kept.sessions[req.id].saved.closed)
  {
    hide Perform, Observe, CaptureAll, Keep, Glance;
    pre := SeenActs(g, lane, req.id, req.kind == Input && wasPlaying);
    var before := CaptureAll(if req.kind == Input && wasPlaying then Observe(g, lane, req.id, true) else lane);
    mid := PerformActs(g, env, before, req);
    var (after, outcome) := Perform(g, env, before, req);
    KeepActs(g, before, after, outcome, req.id);
    if outcome == Failed {
      mid := [];
    }
  }

  lemma TurnActs<W>(g: Game<W>, env: Env, lane: Lane<W>, req: Request, wasClosed: bool)
    requires req.id in lane.sessions && lane.acts == []
    requires IsFresh(lane.sessions[req.id], req.sequence) ==> Checked(env.users, lane.sessions[req.id])
    ensures var r := Record(req, lane.sessions[req.id], Turn(g, env, lane, req, wasClosed));
            r.Some? ==> Faithful(r.value)
  {
    hide Execute, Observe, Depart, Checked, Deed, Glance;
    var id := req.id;
    var c := lane.sessions[id].conn;
    var wasPlaying := c.phase.InGame? && c.character.Some?;
    if IsFresh(lane.sessions[id], req.sequence) {
      var pre, mid := ExecuteActs(g, env, lane, req, wasPlaying);
      var (ran, outcome) := Execute(g, env, lane, req, wasPlaying);
      var departs := !wasClosed && ran.sessions[id].saved.closed && wasPlaying;
      var who := if c.character.Some? then c.character.value else 0;
      DepartActs(g, ran, id, who);
      var told := if departs then Depart(g, ran, id, who) else ran;
      var post := [];
      NoGlance(req.kind == Poll);
      if !told.sessions[id].saved.closed && told.sessions[id].conn.phase.InGame? {
        post := ObserveActs(g, told, id, req.kind == Poll);
      }
      var run := Record(req, lane.sessions[id], Turn(g, env, lane, req, wasClosed)).value;
      assert run.acts == pre + mid + post;
      SameDeed(Ran(req, c.phase, outcome, []), run, mid);
      assert Composed(run, pre, mid, post);
    }
  }

  lemma NoGlance(notify: bool)
    ensures Glance([], notify)
  {
  }

  lemma SameDeed(a: Run, b: Run, mid: seq<Act>)
    requires Deed(a, mid) && b == a.(acts := b.acts)
    ensures Deed(b, mid)
  {
  }

  lemma DepartActs<W>(g: Game<W>, lane: Lane<W>, id: nat, character: nat)
    ensures Depart(g, lane, id, character).acts == lane.acts && Depart(g, lane, id, character).world == lane.world
    ensures id in lane.sessions ==> Depart(g, lane, id, character).sessions[id] == lane.sessions[id]
  {
  }

  // ---------------------------------------------------------------- the dispatch

  // The state a run started from is the one stored for its session, or character
  // selection for a session whose character was taken over.
  ghost predicate FromRow(rows: map<nat, Row>, req: Request, from: Phase) {
    var stored := Start(rows, req).saved.conn.phase;
    from == stored || (stored.InGame? && from.Authenticated?)
  }

  lemma ServeActs<W>(g: Game<W>, env: Env, db: Database<W>, rows: map<nat, Row>, sessions: map<nat, Session>, req: Request)
    requires Loaded(rows, sessions, req)
    requires Serve(g, env, db, rows, sessions, req).Committed?
    ensures var r := Serve(g, env, db, rows, sessions, req);
            r.run.Some? ==> Faithful(r.run.value) && FromRow(rows, req, r.run.value.from)
  {
    hide Base, Turn, Cut, Unique, Store, Acceptable, Conflict, Faithful, Active, Admit;
    var lane := Opening(g, env, db.world, sessions, req);
    OpeningConn(g, env, db.world, rows, sessions, req);
    if IsFresh(lane.sessions[req.id], req.sequence) {
      assert Checked(env.users, lane.sessions[req.id]);
    }
    TurnActs(g, env, lane, req, sessions[req.id].saved.closed);
  }

  // Whatever the game, a committed dispatch records what its own request did.
  lemma DispatchActs<W>(g: Game<W>, env: Env, db: Database<W>, req: Request)
    ensures var r := Dispatch(g, env, db, req);
            r.Committed? && r.run.Some? ==> Faithful(r.run.value) && FromRow(Sweep(db.rows, env.now), req, r.run.value.from)
  {
    hide Serve, Faithful, FromRow;
    if Dispatch(g, env, db, req).Committed? {
      var rows := Sweep(db.rows, env.now);
      var sessions := Load(rows, req.id, env.now);
      var loaded := if req.id in sessions then sessions else sessions[req.id := NewSession(req.edge)];
      assert Loaded(rows, loaded, req);
      ServeActs(g, env, db, rows, loaded, req);
    }
  }
}
