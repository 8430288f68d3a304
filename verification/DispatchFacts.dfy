// What the phases of a dispatch may do to the sessions they touch. Each lemma
// follows one function of CoreDispatch; the last ones describe the stored rows.
module DispatchFacts {
  import opened Wrappers
  import opened Terminalwire
  import opened CoreSession
  import opened CoreDispatch

  // What commands may do to the requester: its outbox grows, its edge and sequence stay.
  ghost predicate Mine(s: Session, t: Session) {
    t.edge == s.edge && t.sequence == s.sequence && Grows(s.saved, t.saved) && (s.dirty ==> t.dirty)
  }

  // What commands may do to a lane: players hear broadcasts, everyone else is untouched.
  ghost predicate Steps<W>(a: Lane<W>, b: Lane<W>, id: nat) {
    && b.sessions.Keys == a.sessions.Keys
    && b.players + {id} == a.players + {id}
    && (forall j :: j in a.sessions && j != id ==>
          Quiet(a.sessions[j], b.sessions[j]) && (j !in a.players ==> b.sessions[j] == a.sessions[j]))
    && (id in a.sessions ==> Mine(a.sessions[id], b.sessions[id]))
  }

  lemma StepsTransitive<W>(a: Lane<W>, b: Lane<W>, c: Lane<W>, id: nat)
    requires Steps(a, b, id) && Steps(b, c, id)
    ensures Steps(a, c, id)
  {
    forall j | j in a.sessions && j != id
      ensures Quiet(a.sessions[j], c.sessions[j])
    {
      GrowsTransitive(a.sessions[j].saved, b.sessions[j].saved, c.sessions[j].saved);
    }
    if id in a.sessions {
      GrowsTransitive(a.sessions[id].saved, b.sessions[id].saved, c.sessions[id].saved);
    }
  }

  lemma StepsReflexive<W>(a: Lane<W>, id: nat)
    ensures Steps(a, a, id)
  {
  }

  lemma TellSteps<W>(lane: Lane<W>, id: nat, lines: seq<string>)
    requires id in lane.sessions
    ensures Steps(lane, Tell(lane, id, lines), id)
    ensures Quiet(lane.sessions[id], Tell(lane, id, lines).sessions[id])
  {
    hide WriteAll, Shape;
    WriteAllQuiet(lane.sessions[id], lines);
  }

  lemma PostSteps<W>(lane: Lane<W>, id: nat, mail: seq<Mail>)
    ensures Steps(lane, Post(lane, id, mail), id)
    ensures id in lane.sessions ==> Quiet(lane.sessions[id], Post(lane, id, mail).sessions[id])
  {
    forall j | j in lane.sessions
      ensures Quiet(lane.sessions[j], Post(lane, id, mail).sessions[j])
    {
      WriteAllQuiet(lane.sessions[j], Inbox(mail, j));
    }
  }

  lemma ApplySteps<W>(lane: Lane<W>, id: nat, e: Effect<W>, act: Act)
    requires id in lane.sessions
    ensures Steps(lane, Apply(lane, id, e, act).0, id)
    ensures var c := Apply(lane, id, e, act).0.sessions[id].conn;
            c == lane.sessions[id].conn.(room := e.room, view := e.view)
  {
    var c := lane.sessions[id].conn.(room := e.room, view := e.view);
    var moved := SetConn(lane, id, c);
    var listed := if c.room.Some? then moved.(players := moved.players + {id}) else moved;
    var mid := listed.(world := e.world, acts := listed.acts + [act]);
    assert Steps(lane, mid, id);
    PostSteps(mid, id, e.mail);
    StepsTransitive(lane, mid, Post(mid, id, e.mail), id);
  }

  lemma SpeakSteps<W>(lane: Lane<W>, id: nat, c: Conn, lines: seq<string>)
    requires id in lane.sessions
    ensures Steps(lane, Tell(SetConn(lane, id, c), id, lines), id)
    ensures Tell(SetConn(lane, id, c), id, lines).sessions[id].conn == c
  {
    assert Steps(lane, SetConn(lane, id, c), id);
    TellSteps(SetConn(lane, id, c), id, lines);
    StepsTransitive(lane, SetConn(lane, id, c), Tell(SetConn(lane, id, c), id, lines), id);
  }

  lemma SelectSteps<W>(g: Game<W>, lane: Lane<W>, id: nat, choice: nat)
    requires id in lane.sessions
    ensures Steps(lane, SelectCharacter(g, lane, id, choice).0, id)
  {
    var c := lane.sessions[id].conn;
    if c.credential.Some? {
      var mine := g.characters(lane.world, c.credential.value.user);
      if choice < 1 || choice > |mine| {
        TellSteps(lane, id, [g.notice(Rejected)]);
      } else {
        var character := mine[choice - 1];
        var home := g.home(lane.world, character);
        if home.Some? {
          if Taken(lane.sessions, id, character) {
            SpeakSteps(lane, id, c.(character := None), [g.notice(Online)]);
          } else {
            var entered := SetConn(lane, id, c.(character := Some(character), room := home, phase := InGame));
            var listed := entered.(players := entered.players + {id});
            assert Steps(lane, listed, id);
            var e := g.enter(lane.world, Present(listed, id), id);
            ApplySteps(listed, id, e.(room := home), Enter(Present(listed, id), id));
            StepsTransitive(lane, listed, SelectCharacter(g, lane, id, choice).0, id);
          }
        }
      }
    }
  }

  lemma StartSignInSteps<W>(g: Game<W>, lane: Lane<W>, id: nat)
    requires id in lane.sessions
    ensures Steps(lane, StartSignIn(g, lane, id), id)
  {
    SpeakSteps(lane, id, lane.sessions[id].conn.(phase := AwaitingUsername), [g.notice(Username)]);
  }

  lemma CheckAuthenticationSteps<W>(g: Game<W>, env: Env, lane: Lane<W>, id: nat, notify: bool)
    requires id in lane.sessions
    ensures Steps(lane, CheckAuthentication(g, env, lane, id, notify).0, id)
  {
    var c := lane.sessions[id].conn;
    if id !in env.pairings || env.pairings[id].token != c.token {
      TellSteps(lane, id, [g.notice(Pending)]);
    } else if Active(env.users, env.pairings[id].credential) {
      SpeakSteps(lane, id, c.(credential := Some(env.pairings[id].credential), phase := Authenticated),
                 [g.notice(Accepted)]);
    }
  }

  lemma RequestSignInSteps<W>(g: Game<W>, env: Env, lane: Lane<W>, id: nat, username: string)
    requires id in lane.sessions
    ensures Steps(lane, RequestSignIn(g, env, lane, id, username).0, id)
  {
    var c := lane.sessions[id].conn;
    if env.challenge.Some? {
      SpeakSteps(lane, id, c.(view := g.named(c, username), token := env.challenge.value, phase := AwaitingAuth),
                 [g.notice(Instructions)]);
    }
  }

  lemma RestartSteps<W>(g: Game<W>, lane: Lane<W>, id: nat, c: Conn)
    requires id in lane.sessions
    ensures Steps(lane, StartSignIn(g, SetConn(lane, id, c), id), id)
  {
    hide StartSignIn;
    var shown := SetConn(lane, id, c);
    assert Steps(lane, shown, id);
    StartSignInSteps(g, shown, id);
    StepsTransitive(lane, shown, StartSignIn(g, shown, id), id);
  }

  lemma IntentSteps<W>(g: Game<W>, env: Env, lane: Lane<W>, id: nat, intent: Intent)
    requires id in lane.sessions
    ensures Steps(lane, FollowIntent(g, env, lane, id, intent).0, id)
  {
    hide Tell, SetConn, StartSignIn, RequestSignIn, CheckAuthentication, SelectCharacter, Steps;
    var c := lane.sessions[id].conn;
    StepsReflexive(lane, id);
    match intent
    case Answer(lines, view) => SpeakSteps(lane, id, c.(view := view), lines);
    case Leave(lines) => TellSteps(lane, id, lines);
    case Restart(view) => RestartSteps(g, lane, id, c.(view := view));
    case Name(username) => RequestSignInSteps(g, env, lane, id, username);
    case Check => CheckAuthenticationSteps(g, env, lane, id, true);
    case Choose(choice) => SelectSteps(g, lane, id, choice);
  }

  lemma InputSteps<W>(g: Game<W>, env: Env, lane: Lane<W>, id: nat, line: string)
    requires id in lane.sessions
    ensures Steps(lane, ProcessInput(g, env, lane, id, line).0, id)
  {
    hide Apply, StartSignIn, FollowIntent, Present;
    var s := lane.sessions[id];
    var (t, quit) := CheckSession(g, env.users, s);
    if quit {
      WriteQuiet(s, g.notice(Ended));
    } else if s.conn.phase.InGame? {
      if s.conn.character.Some? {
        ApplySteps(lane, id, g.play(lane.world, Present(lane, id), id, line), Play(Present(lane, id), id, line));
      }
    } else if s.conn.phase.Connected? {
      StartSignInSteps(g, lane, id);
    } else {
      IntentSteps(g, env, lane, id, g.intent(s.conn, line));
    }
  }

  lemma PerformSteps<W>(g: Game<W>, env: Env, lane: Lane<W>, req: Request)
    requires req.id in lane.sessions
    ensures Steps(lane, Perform(g, env, lane, req).0, req.id)
  {
    hide ProcessInput, CheckAuthentication, StartSignIn, Tell;
    var id := req.id;
    match req.kind
    case Open =>
      var hello := Tell(lane, id, [g.notice(Welcome)]);
      TellSteps(lane, id, [g.notice(Welcome)]);
      StartSignInSteps(g, hello, id);
      StepsTransitive(lane, hello, StartSignIn(g, hello, id), id);
    case Poll => CheckAuthenticationSteps(g, env, lane, id, false);
    case Close =>
    case Input => InputSteps(g, env, lane, id, req.line);
  }

  lemma ObserveSteps<W>(g: Game<W>, lane: Lane<W>, id: nat, notify: bool)
    requires id in lane.sessions
    ensures Steps(lane, Observe(g, lane, id, notify), id)
    ensures Observe(g, lane, id, notify).sessions[id].conn == lane.sessions[id].conn
    ensures Observe(g, lane, id, notify).players == lane.players
  {
    var s := lane.sessions[id];
    if s.conn.room.Some? {
      WriteAllQuiet(s, g.observe(lane.world, s.saved.scene, s.conn.room.value, notify).lines);
    }
  }

  lemma LookAroundSteps<W>(g: Game<W>, lane: Lane<W>, id: nat, poll: bool)
    requires id in lane.sessions
    ensures Steps(lane, LookAround(g, lane, id, poll), id)
    ensures LookAround(g, lane, id, poll).sessions[id].conn == lane.sessions[id].conn
  {
    var seen := Observe(g, lane, id, poll);
    ObserveSteps(g, lane, id, poll);
    TellSteps(seen, id, [g.notice(Prompt)]);
    StepsTransitive(lane, seen, Tell(seen, id, [g.notice(Prompt)]), id);
  }

  lemma DepartSteps<W>(g: Game<W>, lane: Lane<W>, id: nat, character: nat)
    ensures Steps(lane, Depart(g, lane, id, character), id)
    ensures id in lane.sessions ==> Depart(g, lane, id, character).sessions[id] == lane.sessions[id]
  {
    forall j | j in lane.sessions
      ensures Quiet(lane.sessions[j], Depart(g, lane, id, character).sessions[j])
    {
      WriteQuiet(lane.sessions[j], g.notice(Left(character)));
    }
  }

  // Connections are rebuilt from their checkpoints, so the savepoint holds them all.
  ghost predicate Restored(sessions: map<nat, Session>, id: nat) {
    forall j :: j in sessions && j != id ==> sessions[j].conn == sessions[j].saved.conn
  }

  // What a dispatch may do to a session that did not send the request.
  ghost predicate Bystander(s: Session, t: Session, player: bool, failed: bool) {
    && t.edge == s.edge && t.sequence == s.sequence && t.conn == s.conn
    && t.saved.conn == s.saved.conn && t.saved.scene == s.saved.scene
    && Grows(s.saved, t.saved)
    && (t.saved != s.saved ==> t.dirty)
    && (!player ==> t.saved == s.saved)
    && (!failed && s.dirty ==> t.dirty)
    && (!player && failed ==> !t.dirty)
  }

  ghost predicate Turned1<W>(a: Lane<W>, b: Lane<W>, id: nat, failed: bool) {
    && b.sessions.Keys == a.sessions.Keys
    && b.players + {id} == a.players + {id}
    && (forall j :: j in a.sessions && j != id ==>
          Bystander(a.sessions[j], b.sessions[j], j in a.players, failed))
    && (id in a.sessions ==>
          b.sessions[id].edge == a.sessions[id].edge && Grows(a.sessions[id].saved, b.sessions[id].saved)
          && (a.sessions[id].dirty ==> b.sessions[id].dirty))
  }

  lemma StepsTurned<W>(a: Lane<W>, b: Lane<W>, c: Lane<W>, id: nat, failed: bool)
    requires Turned1(a, b, id, failed) && Steps(b, c, id)
    ensures Turned1(a, c, id, failed)
  {
    forall j | j in a.sessions && j != id
      ensures Bystander(a.sessions[j], c.sessions[j], j in a.players, failed)
    {
      GrowsTransitive(a.sessions[j].saved, b.sessions[j].saved, c.sessions[j].saved);
    }
    if id in a.sessions {
      GrowsTransitive(a.sessions[id].saved, b.sessions[id].saved, c.sessions[id].saved);
    }
  }

  // A failed command leaves every bystander as it was before it.
  lemma UndoneTurned<W>(g: Game<W>, lane: Lane<W>, before: Lane<W>, players: set<nat>, id: nat)
    requires id in lane.sessions && Restored(lane.sessions, id)
    requires Steps(lane, before, id) && players + {id} == lane.players + {id}
    requires forall j :: j in lane.sessions && j != id ==> before.sessions[j].saved == lane.sessions[j].saved
    ensures Turned1(lane, Tell(RollBack(before, players, id), id, [g.notice(Refused)]), id, true)
  {
    var undone := RollBack(before, players, id);
    assert Turned1(lane, undone, id, true);
    TellSteps(undone, id, [g.notice(Refused)]);
    StepsTurned(lane, undone, Tell(undone, id, [g.notice(Refused)]), id, true);
  }

  lemma StepsAreTurned<W>(a: Lane<W>, b: Lane<W>, id: nat)
    requires Steps(a, b, id)
    ensures Turned1(a, b, id, false)
  {
  }

  lemma RetireSteps<W>(lane: Lane<W>, id: nat)
    requires id in lane.sessions
    ensures Steps(lane, Retire(lane, id), id)
  {
  }

  lemma KeptTurned<W>(g: Game<W>, lane: Lane<W>, before: Lane<W>, after: Lane<W>, outcome: Outcome, id: nat)
    requires id in lane.sessions && Restored(lane.sessions, id)
    requires Steps(lane, before, id) && Steps(before, after, id)
    requires before.players == lane.players
    requires forall j :: j in lane.sessions && j != id ==> before.sessions[j].saved == lane.sessions[j].saved
    ensures Turned1(lane, Keep(g, before, after, outcome, id), id, outcome == Failed)
  {
    hide Retire, RollBack, Tell, Quiet, Mine, Bystander;
    assert after.players + {id} == lane.players + {id} && id in after.sessions;
    if outcome == Failed {
      UndoneTurned(g, lane, before, after.players, id);
    } else {
      StepsTransitive(lane, before, after, id);
      RetireSteps(after, id);
      StepsTransitive(lane, after, Retire(after, id), id);
      StepsAreTurned(lane, if outcome == Quit then Retire(after, id) else after, id);
    }
  }

  lemma CaptureSteps<W>(lane: Lane<W>, id: nat)
    requires Restored(lane.sessions, id)
    ensures Steps(lane, CaptureAll(lane), id) && CaptureAll(lane).players == lane.players
    ensures forall j :: j in lane.sessions && j != id ==> CaptureAll(lane).sessions[j] == lane.sessions[j]
  {
    hide Size;
  }

  lemma ObserveOthers<W>(g: Game<W>, lane: Lane<W>, id: nat, notify: bool)
    requires id in lane.sessions
    ensures forall j :: j in lane.sessions && j != id ==> Observe(g, lane, id, notify).sessions[j] == lane.sessions[j]
  {
    hide WriteAll;
  }

  lemma SeenSteps<W>(g: Game<W>, lane: Lane<W>, id: nat, looks: bool)
    requires id in lane.sessions && Restored(lane.sessions, id)
    ensures var before := CaptureAll(if looks then Observe(g, lane, id, true) else lane);
            && Steps(lane, before, id) && before.players == lane.players
            && forall j :: j in lane.sessions && j != id ==> before.sessions[j].saved == lane.sessions[j].saved
  {
    hide Observe, CaptureAll, Steps;
    var seen := if looks then Observe(g, lane, id, true) else lane;
    ObserveSteps(g, lane, id, true);
    ObserveOthers(g, lane, id, true);
    StepsReflexive(lane, id);
    CaptureSteps(seen, id);
    StepsTransitive(lane, seen, CaptureAll(seen), id);
  }

  // Answering the command in sequence does not disturb what was turned.
  lemma Resequenced<W>(a: Lane<W>, b: Lane<W>, id: nat, failed: bool, sequence: nat)
    requires id in b.sessions && Turned1(a, b, id, failed)
    ensures Turned1(a, b.(sessions := b.sessions[id := b.sessions[id].(sequence := sequence)]), id, failed)
  {
  }

  lemma ExecuteTurned<W>(g: Game<W>, env: Env, lane: Lane<W>, req: Request, wasPlaying: bool)
    requires req.id in lane.sessions && Restored(lane.sessions, req.id)
    ensures var (r, outcome) := Execute(g, env, lane, req, wasPlaying);
            Turned1(lane, r, req.id, outcome == Failed) && r.sessions[req.id].sequence == req.sequence
  {
    hide Perform, Observe, CaptureAll, Keep, Turned1, Steps;
    var before := CaptureAll(if req.kind == Input && wasPlaying then Observe(g, lane, req.id, true) else lane);
    SeenSteps(g, lane, req.id, req.kind == Input && wasPlaying);
    PerformSteps(g, env, before, req);
    var (after, outcome) := Perform(g, env, before, req);
    KeptTurned(g, lane, before, after, outcome, req.id);
    Resequenced(lane, Keep(g, before, after, outcome, req.id), req.id, outcome == Failed, req.sequence);
  }

  lemma DepartTurned<W>(g: Game<W>, a: Lane<W>, b: Lane<W>, id: nat, failed: bool, departs: bool, character: nat)
    requires id in b.sessions && Turned1(a, b, id, failed)
    ensures Turned1(a, if departs then Depart(g, b, id, character) else b, id, failed)
    ensures Depart(g, b, id, character).sessions[id] == b.sessions[id]
    ensures Depart(g, b, id, character).world == b.world && Depart(g, b, id, character).acts == b.acts
  {
    hide Turned1, Steps;
    DepartSteps(g, b, id, character);
    StepsTurned(a, b, Depart(g, b, id, character), id, failed);
  }

  lemma LookAroundTurned<W>(g: Game<W>, a: Lane<W>, b: Lane<W>, id: nat, failed: bool, looks: bool, poll: bool)
    requires id in b.sessions && Turned1(a, b, id, failed)
    ensures Turned1(a, if looks then LookAround(g, b, id, poll) else b, id, failed)
    ensures LookAround(g, b, id, poll).sessions[id].sequence == b.sessions[id].sequence
    ensures b.sessions[id].saved.closed ==> LookAround(g, b, id, poll).sessions[id].saved.closed
  {
    hide LookAround, Turned1;
    LookAroundSteps(g, b, id, poll);
    StepsTurned(a, b, LookAround(g, b, id, poll), id, failed);
  }

  lemma TurnTurned<W>(g: Game<W>, env: Env, lane: Lane<W>, req: Request, wasClosed: bool)
    requires req.id in lane.sessions && Restored(lane.sessions, req.id)
    ensures var t := Turn(g, env, lane, req, wasClosed);
            var s := lane.sessions[req.id];
            var f := t.lane.sessions[req.id];
            && Turned1(lane, t.lane, req.id, t.outcome == Some(Failed))
            && (t.outcome.Some? <==> IsFresh(s, req.sequence))
            && f.sequence == (if IsFresh(s, req.sequence) || (f.saved.closed && req.sequence == s.sequence + 1)
                              then req.sequence else s.sequence)
            && (t.outcome.None? ==> f.saved == s.saved && f.conn == s.conn && t.lane.world == lane.world && t.lane.acts == lane.acts)
            && (t.departed ==> !wasClosed && f.saved.closed)
  {
    hide Execute, Depart, LookAround, Turned1, Steps;
    var id := req.id;
    var s := lane.sessions[id];
    var c := s.conn;
    var wasPlaying := c.phase.InGame? && c.character.Some?;
    var go := IsFresh(s, req.sequence);
    var ran := if go then Execute(g, env, lane, req, wasPlaying).0 else lane;
    var failed := go && Execute(g, env, lane, req, wasPlaying).1 == Failed;
    if go {
      ExecuteTurned(g, env, lane, req, wasPlaying);
    } else {
      UnmovedTurned(lane, id);
    }
    var departed := !wasClosed && ran.sessions[id].saved.closed && wasPlaying;
    var who := if c.character.Some? then c.character.value else 0;
    DepartTurned(g, lane, ran, id, failed, departed, who);
    var told := if departed then Depart(g, ran, id, who) else ran;
    var looks := go && !told.sessions[id].saved.closed && told.sessions[id].conn.phase.InGame?;
    LookAroundTurned(g, lane, told, id, failed, looks, req.kind == Poll);
    var done := if looks then LookAround(g, told, id, req.kind == Poll) else told;
    Resequenced(lane, done, id, failed, Advance(done.sessions[id], req.sequence).sequence);
    assert done.sessions[id].(sequence := Advance(done.sessions[id], req.sequence).sequence) == Advance(done.sessions[id], req.sequence);
  }

  lemma UnmovedTurned<W>(lane: Lane<W>, id: nat)
    ensures Turned1(lane, lane, id, false)
  {
  }
}
