// Before play: every dialogue step of a terminal, from the stored connection and the
// request to the stored connection and the texts it is told.
module SignIn {
  import opened Wrappers
  import opened Terminalwire
  import opened CoreSession
  import opened CoreDispatch
  import opened DispatchFacts
  import opened RowFacts
  import opened Failures
  import opened Acts
  import opened WorldReplay
  import opened Messages
  import opened Replies

  // What a step comes to: the dialogue goes on, the session ends, the step is refused, or
  // a character enters the realm.
  datatype Outlook =
    | Says(conn: Conn, texts: seq<string>)
    | Ends(texts: seq<string>)
    | Refuses
    | Enters(character: nat, room: nat)

  // The browser has confirmed the code this connection was given.
  predicate Confirmed(env: Env, id: nat, c: Conn) {
    id in env.pairings && env.pairings[id].token == c.token
  }

  function Checking<W>(g: Game<W>, env: Env, id: nat, c: Conn, unconfirmed: seq<string>): Outlook {
    if !Confirmed(env, id, c) then Says(c, unconfirmed)
    else if !Active(env.users, env.pairings[id].credential) then Ends([])
    else Says(c.(credential := Some(env.pairings[id].credential), phase := Authenticated), [g.notice(Accepted)])
  }

  // `busy` are the characters other live sessions play.
  function Choosing<W>(g: Game<W>, w: W, busy: set<nat>, c: Conn, choice: nat): Outlook {
    if c.credential.None? then Refuses
    else
      var mine := g.characters(w, c.credential.value.user);
      if !(1 <= choice <= |mine|) then Says(c, [g.notice(Rejected)])
      else
        var home := g.home(w, mine[choice - 1]);
        if home.None? then Refuses
        else if mine[choice - 1] in busy then Says(c.(character := None), [g.notice(Online)])
        else Enters(mine[choice - 1], home.value)
  }

  function Typed<W>(g: Game<W>, env: Env, w: W, busy: set<nat>, id: nat, c: Conn, line: string): Outlook {
    if c.phase.Connected? then Says(c.(phase := AwaitingUsername), [g.notice(Username)])
    else
      match g.intent(c, line)
      case Answer(lines, view) => Says(c.(view := view), lines)
      case Leave(lines) => Ends(lines)
      case Restart(view) =>
        if c.phase.AwaitingUsername? then Says(c.(view := view, phase := AwaitingUsername), [g.notice(Username)]) else Refuses
      case Name(username) =>
        if !(c.phase.AwaitingUsername? || c.phase.AwaitingAuth?) || env.challenge.None? then Refuses
        else Says(c.(view := g.named(c, username), token := env.challenge.value, phase := AwaitingAuth), [g.notice(Instructions)])
      case Check =>
        if c.phase.AwaitingAuth? || c.phase.Authenticated? then Checking(g, env, id, c, [g.notice(Pending)]) else Refuses
      case Choose(choice) => if c.phase.Authenticated? then Choosing(g, w, busy, c, choice) else Refuses
  }

  // The dialogue of a connection that is not in play.
  function Dialogue<W>(g: Game<W>, env: Env, w: W, busy: set<nat>, c: Conn, req: Request): Outlook {
    match req.kind
    case Open => Says(c.(phase := AwaitingUsername), [g.notice(Welcome), g.notice(Username)])
    case Input => Typed(g, env, w, busy, req.id, c, req.line)
    case Poll => if c.phase.AwaitingAuth? then Checking(g, env, req.id, c, []) else Says(c, [])
    case Close => Ends([])
  }

  // ---------------------------------------------------------------- one command

  // What the command has made of the requester, short of entering the realm.
  ghost predicate Follows<W>(s: Session, b: Lane<W>, r: (Lane<W>, Outcome), id: nat, o: Outlook)
    requires id in r.0.sessions
  {
    && r.0.acts == b.acts && r.0.world == b.world
    && (match o
        case Says(conn, texts) => r.1 == Done && r.0.sessions[id].conn == conn && Said(s, r.0.sessions[id], texts)
        case Ends(texts) => r.1 == Quit && Said(s, r.0.sessions[id], texts)
        case Refuses => r.1 == Failed
        case Enters(_, _) => false)
  }

  lemma SaysAt<W>(s: Session, b: Lane<W>, id: nat, c: Conn, lines: seq<string>)
    requires id in b.sessions && SameBox(s.saved, b.sessions[id].saved)
    ensures var t := Tell(SetConn(b, id, c), id, lines).sessions[id]; t.conn == c && Said(s, t, lines)
    ensures Said(s, Tell(b, id, lines).sessions[id], lines) && Said(s, b.sessions[id], [])
    ensures Tell(b, id, lines).sessions[id].conn == b.sessions[id].conn
  {
    SpeakSteps(b, id, c, lines);
    TellSteps(b, id, lines);
    WriteSameBox(s, b.sessions[id], lines);
    WriteSameBox(s, b.sessions[id].(conn := c), lines);
  }

  lemma ChecksAt<W>(g: Game<W>, env: Env, s: Session, b: Lane<W>, id: nat, notify: bool)
    requires id in b.sessions && SameBox(s.saved, b.sessions[id].saved)
    ensures Follows(s, b, CheckAuthentication(g, env, b, id, notify), id,
                    Checking(g, env, id, b.sessions[id].conn, if notify then [g.notice(Pending)] else []))
  {
    hide Active, Said;
    var c := b.sessions[id].conn;
    SaysAt(s, b, id, c, [g.notice(Pending)]);
    if id in env.pairings {
      SaysAt(s, b, id, c.(credential := Some(env.pairings[id].credential), phase := Authenticated), [g.notice(Accepted)]);
    }
    hide WriteAll;
  }

  lemma ChoosesAt<W>(g: Game<W>, s: Session, b: Lane<W>, id: nat, busy: set<nat>, choice: nat)
    requires id in b.sessions && SameBox(s.saved, b.sessions[id].saved)
    requires forall c: nat :: Taken(b.sessions, id, c) <==> c in busy
    ensures var o := Choosing(g, b.world, busy, b.sessions[id].conn, choice);
            !o.Enters? ==> Follows(s, b, SelectCharacter(g, b, id, choice), id, o)
  {
    hide Taken, Apply, Said, WriteAll, Present;
    var c := b.sessions[id].conn;
    SaysAt(s, b, id, c, [g.notice(Rejected)]);
    SaysAt(s, b, id, c.(character := None), [g.notice(Online)]);
  }

  lemma DialsAt<W>(g: Game<W>, env: Env, s: Session, b: Lane<W>, id: nat, c: Conn, username: string)
    requires id in b.sessions && SameBox(s.saved, b.sessions[id].saved)
    ensures var r := StartSignIn(g, SetConn(b, id, c), id);
            r.sessions[id].conn == c.(phase := AwaitingUsername) && Said(s, r.sessions[id], [g.notice(Username)])
            && r.world == b.world && r.acts == b.acts
    ensures var d := b.sessions[id].conn;
            Follows(s, b, RequestSignIn(g, env, b, id, username), id,
                    if env.challenge.None? then Refuses
                    else Says(d.(view := g.named(d, username), token := env.challenge.value, phase := AwaitingAuth), [g.notice(Instructions)]))
  {
    hide Said, WriteAll;
    var shown := SetConn(b, id, c);
    SaysAt(s, shown, id, c.(phase := AwaitingUsername), [g.notice(Username)]);
    if env.challenge.Some? {
      var d := b.sessions[id].conn;
      SaysAt(s, b, id, d.(view := g.named(d, username), token := env.challenge.value, phase := AwaitingAuth), [g.notice(Instructions)]);
    }
  }

  lemma TypesAt<W>(g: Game<W>, env: Env, s: Session, b: Lane<W>, id: nat, busy: set<nat>, line: string)
    requires id in b.sessions && SameBox(s.saved, b.sessions[id].saved)
    requires forall c: nat :: Taken(b.sessions, id, c) <==> c in busy
    requires Checked(env.users, b.sessions[id]) && !b.sessions[id].conn.phase.InGame?
    ensures var o := Typed(g, env, b.world, busy, id, b.sessions[id].conn, line);
            !o.Enters? ==> Follows(s, b, ProcessInput(g, env, b, id, line), id, o)
  {
    hide Taken, Apply, Said, WriteAll, Present, Active, SelectCharacter, CheckAuthentication, RequestSignIn, StartSignIn, SetConn, Tell, Checking, Choosing, Follows;
    var c := b.sessions[id].conn;
    if c.phase.Connected? {
      DialsSame(g, env, s, b, id);
    } else {
      IntentsAt(g, env, s, b, id, busy, g.intent(c, line), line);
    }
  }

  lemma DialsSame<W>(g: Game<W>, env: Env, s: Session, b: Lane<W>, id: nat)
    requires id in b.sessions && SameBox(s.saved, b.sessions[id].saved)
    ensures Follows(s, b, (StartSignIn(g, b, id), Done), id, Says(b.sessions[id].conn.(phase := AwaitingUsername), [g.notice(Username)]))
  {
    hide Said, WriteAll;
    SaysAt(s, b, id, b.sessions[id].conn.(phase := AwaitingUsername), [g.notice(Username)]);
  }

  lemma IntentsAt<W>(g: Game<W>, env: Env, s: Session, b: Lane<W>, id: nat, busy: set<nat>, intent: Intent, line: string)
    requires id in b.sessions && SameBox(s.saved, b.sessions[id].saved) && !b.sessions[id].conn.phase.Connected?
    requires forall c: nat :: Taken(b.sessions, id, c) <==> c in busy
    requires intent == g.intent(b.sessions[id].conn, line)
    ensures var o := Typed(g, env, b.world, busy, id, b.sessions[id].conn, line);
            !o.Enters? ==> Follows(s, b, FollowIntent(g, env, b, id, intent), id, o)
  {
    hide Taken, Said, WriteAll, SelectCharacter, CheckAuthentication, RequestSignIn, StartSignIn, Checking, Choosing;
    var c := b.sessions[id].conn;
    match intent
    case Answer(lines, view) => SaysAt(s, b, id, c.(view := view), lines);
    case Leave(lines) => SaysAt(s, b, id, c, lines);
    case Restart(view) => DialsAt(g, env, s, b, id, c.(view := view), "");
    case Name(username) => DialsAt(g, env, s, b, id, c, username);
    case Check => ChecksAt(g, env, s, b, id, true);
    case Choose(choice) => ChoosesAt(g, s, b, id, busy, choice);
  }

  lemma PerformsAt<W>(g: Game<W>, env: Env, s: Session, b: Lane<W>, req: Request, busy: set<nat>)
    requires req.id in b.sessions && SameBox(s.saved, b.sessions[req.id].saved)
    requires forall c: nat :: Taken(b.sessions, req.id, c) <==> c in busy
    requires Checked(env.users, b.sessions[req.id]) && !b.sessions[req.id].conn.phase.InGame?
    ensures var o := Dialogue(g, env, b.world, busy, b.sessions[req.id].conn, req);
            !o.Enters? ==> Follows(s, b, Perform(g, env, b, req), req.id, o)
  {
    var id := req.id;
    match req.kind
    case Open => OpensAt(g, s, b, id);
    case Input =>
      hide Typed, Follows, Taken;
      TypesAt(g, env, s, b, id, busy, req.line);
    case Poll =>
      hide Said, CheckAuthentication, WriteAll, Checking, Taken;
      SaysAt(s, b, id, b.sessions[id].conn, []);
      ChecksAt(g, env, s, b, id, false);
    case Close =>
      hide Said, WriteAll, Taken;
      SaysAt(s, b, id, b.sessions[id].conn, []);
  }

  lemma OpensAt<W>(g: Game<W>, s: Session, b: Lane<W>, id: nat)
    requires id in b.sessions && SameBox(s.saved, b.sessions[id].saved)
    ensures Follows(s, b, (StartSignIn(g, Tell(b, id, [g.notice(Welcome)]), id), Done), id,
                    Says(b.sessions[id].conn.(phase := AwaitingUsername), [g.notice(Welcome), g.notice(Username)]))
  {
    var hello := Tell(b, id, [g.notice(Welcome)]);
    SaysAt(s, b, id, b.sessions[id].conn, [g.notice(Welcome)]);
    var c := hello.sessions[id].conn.(phase := AwaitingUsername);
    SpeakSteps(hello, id, c, [g.notice(Username)]);
    var u := StartSignIn(g, hello, id).sessions[id];
    WriteSameBox(hello.sessions[id].(conn := c), hello.sessions[id], [g.notice(Username)]);
    SaidMore(s, hello.sessions[id], u, [g.notice(Welcome)], [g.notice(Username)]);
    assert [g.notice(Welcome)] + [g.notice(Username)] == [g.notice(Welcome), g.notice(Username)];
    hide WriteAll, Said;
  }

  lemma EntersAt<W>(g: Game<W>, w: W, s: Session, b: Lane<W>, id: nat, busy: set<nat>, choice: nat)
    requires id in b.sessions && SameBox(s.saved, b.sessions[id].saved) && b.acts == [] && b.world == w
    requires forall c: nat :: Taken(b.sessions, id, c) <==> c in busy
    requires Choosing(g, b.world, busy, b.sessions[id].conn, choice).Enters?
    ensures var o := Choosing(g, b.world, busy, b.sessions[id].conn, choice);
            var r := SelectCharacter(g, b, id, choice).0;
            && (|r.acts| == 1 && r.acts[0].Enter?)
            && Tracks(g, w, r) && Said(s, r.sessions[id], Voice(g, w, r.acts, id))
            && r.sessions[id].conn == b.sessions[id].conn.(phase := InGame, character := Some(o.character), room := Some(o.room),
                                                           view := r.sessions[id].conn.view)
  {
    hide Taken, Present, WriteAll, Tracks, Said, Apply;
    var c := b.sessions[id].conn;
    var o := Choosing(g, b.world, busy, c, choice);
    var d := c.(character := Some(o.character), room := Some(o.room), phase := InGame);
    var entered := SetConn(b, id, d);
    var listed := entered.(players := entered.players + {id});
    var act := Enter(Present(listed, id), id);
    var e := g.enter(b.world, Present(listed, id), id).(room := Some(o.room));
    EnterStarts(g, w, s, listed, id);
    ApplySays(g, w, s, listed, id, e, act);
    ApplyActs(listed, id, e, act);
    ApplySteps(listed, id, e, act);
    assert SelectCharacter(g, b, id, choice) == Apply(listed, id, e, act);
    assert [] + [act] == [act];
  }

  lemma EnterStarts<W>(g: Game<W>, w: W, s: Session, b: Lane<W>, id: nat)
    requires id in b.sessions && SameBox(s.saved, b.sessions[id].saved) && b.acts == [] && b.world == w
    ensures Tracks(g, w, b) && Said(s, b.sessions[id], Voice(g, w, b.acts, id))
  {
  }

  // ---------------------------------------------------------------- one turn

  // What the turn has made of the requester.
  ghost predicate Settled<W>(g: Game<W>, w: W, s: Session, f: Session, acts: seq<Act>, id: nat, outcome: Outcome, o: Outlook) {
    match o
    case Says(conn, texts) => outcome == Done && acts == [] && f.conn == conn && Said(s, f, texts)
    case Ends(texts) =>
      outcome == Quit && acts == [] && f.saved.closed
      && exists before :: Said(s, before, texts) && SameBox(before.saved.(closed := true), f.saved)
    case Refuses => outcome == Failed && acts == [] && f.conn == s.conn && Said(s, f, [g.notice(Refused)])
    case Enters(character, room) =>
      match outcome
      case Done =>
        acts != [] && acts[0].Enter? && Said(s, f, Voice(g, w, acts, id))
        && f.conn == s.conn.(phase := InGame, character := Some(character), room := Some(room), view := f.conn.view)
      case Failed => acts == [] && f.conn == s.conn && Said(s, f, [g.notice(Refused)])
      case Quit => f.saved.closed
  }

  lemma CapturedAt<W>(lane: Lane<W>, id: nat, busy: set<nat>)
    requires id in lane.sessions && Restored(lane.sessions, id)
    requires forall c: nat :: Taken(lane.sessions, id, c) <==> c in busy
    ensures var b := CaptureAll(lane);
            && b.sessions[id].conn == lane.sessions[id].conn == b.sessions[id].saved.conn
            && SameBox(lane.sessions[id].saved, b.sessions[id].saved) && b.world == lane.world && b.acts == lane.acts
            && forall c: nat :: Taken(b.sessions, id, c) <==> c in busy
  {
    var b := CaptureAll(lane);
    forall c: nat
      ensures Taken(b.sessions, id, c) <==> Taken(lane.sessions, id, c)
    {
      TakenSame(b.sessions, lane.sessions, id, c);
    }
    hide Taken;
  }

  lemma TakenSame(a: map<nat, Session>, b: map<nat, Session>, id: nat, character: nat)
    requires a.Keys == b.Keys
    requires forall j :: j in a && j != id ==> a[j].saved.closed == b[j].saved.closed && a[j].conn == b[j].conn
    ensures Taken(a, id, character) <==> Taken(b, id, character)
  {
  }

  lemma KeepSettles<W>(g: Game<W>, s: Session, b: Lane<W>, r: (Lane<W>, Outcome), id: nat, o: Outlook)
    requires id in b.sessions && r.0.sessions.Keys == b.sessions.Keys && b.acts == []
    requires Follows(s, b, r, id, o) && SameBox(s.saved, b.sessions[id].saved) && b.sessions[id].saved.conn == s.conn
    ensures var k := Keep(g, b, r.0, r.1, id); Settled(g, b.world, s, k.sessions[id], k.acts, id, r.1, o)
  {
    var k := Keep(g, b, r.0, r.1, id);
    if o.Refuses? {
      var undone := RollBack(b, r.0.players, id);
      WriteSameBox(s, undone.sessions[id], [g.notice(Refused)]);
      TellSteps(undone, id, [g.notice(Refused)]);
    }
    hide WriteAll;
    if o.Ends? {
      assert Said(s, r.0.sessions[id], o.texts) && SameBox(r.0.sessions[id].saved.(closed := true), k.sessions[id].saved);
    }
  }

  lemma EnterSettles<W>(g: Game<W>, s: Session, b: Lane<W>, r: (Lane<W>, Outcome), id: nat, o: Outlook)
    requires id in b.sessions && r.0.sessions.Keys == b.sessions.Keys && b.acts == [] && o.Enters?
    requires SameBox(s.saved, b.sessions[id].saved) && b.sessions[id].saved.conn == s.conn
    requires |r.0.acts| == 1 && r.0.acts[0].Enter? && Tracks(g, b.world, r.0)
    requires Said(s, r.0.sessions[id], Voice(g, b.world, r.0.acts, id))
    requires r.0.sessions[id].conn == s.conn.(phase := InGame, character := Some(o.character), room := Some(o.room),
                                              view := r.0.sessions[id].conn.view)
    ensures var k := Keep(g, b, r.0, r.1, id);
            Settled(g, b.world, s, k.sessions[id], k.acts, id, r.1, o) && (r.1 == Done ==> Tracks(g, b.world, k))
  {
    if r.1 == Failed {
      var undone := RollBack(b, r.0.players, id);
      WriteSameBox(s, undone.sessions[id], [g.notice(Refused)]);
      TellSteps(undone, id, [g.notice(Refused)]);
    }
    hide WriteAll, Voice, ReplayActs;
  }

  lemma SettledOn<W>(g: Game<W>, w: W, s: Session, f: Session, t: Session, acts: seq<Act>, id: nat, outcome: Outcome, o: Outlook)
    requires Settled(g, w, s, f, acts, id, outcome, o) && t.conn == f.conn && SameBox(f.saved, t.saved)
    ensures Settled(g, w, s, t, acts, id, outcome, o)
  {
    hide Voice, WriteAll;
  }

  lemma ExecuteSettles<W>(g: Game<W>, env: Env, lane: Lane<W>, req: Request, busy: set<nat>)
    requires req.id in lane.sessions && lane.acts == [] && Restored(lane.sessions, req.id)
    requires forall c: nat :: Taken(lane.sessions, req.id, c) <==> c in busy
    requires Checked(env.users, lane.sessions[req.id]) && !lane.sessions[req.id].conn.phase.InGame?
    ensures var s := lane.sessions[req.id];
            var (k, outcome) := Execute(g, env, lane, req, false);
            var o := Dialogue(g, env, lane.world, busy, s.conn, req);
            && Settled(g, lane.world, s, k.sessions[req.id], k.acts, req.id, outcome, o)
            && (o.Enters? && outcome == Done ==> Tracks(g, lane.world, k))
  {
    hide Taken, Perform, Settled, Follows, CaptureAll, Keep, Dialogue, Tracks, Voice, WriteAll, Said, Restored, Active;
    var id := req.id;
    var s := lane.sessions[id];
    CapturedAt(lane, id, busy);
    var b := CaptureAll(lane);
    var o := Dialogue(g, env, lane.world, busy, s.conn, req);
    var r := Perform(g, env, b, req);
    if o.Enters? {
      PerformEnters(g, env, s, b, req, busy);
      EnterSettles(g, s, b, r, id, o);
    } else {
      PerformsAt(g, env, s, b, req, busy);
      KeepSettles(g, s, b, r, id, o);
    }
    var k := Keep(g, b, r.0, r.1, id);
    SettledOn(g, lane.world, s, k.sessions[id], Execute(g, env, lane, req, false).0.sessions[id], k.acts, id, r.1, o);
    if o.Enters? && r.1 == Done {
      SameTracks(g, lane.world, k, Execute(g, env, lane, req, false).0);
    }
  }

  lemma PerformEnters<W>(g: Game<W>, env: Env, s: Session, b: Lane<W>, req: Request, busy: set<nat>)
    requires req.id in b.sessions && SameBox(s.saved, b.sessions[req.id].saved) && b.acts == [] && s.conn == b.sessions[req.id].conn
    requires forall c: nat :: Taken(b.sessions, req.id, c) <==> c in busy
    requires Checked(env.users, b.sessions[req.id]) && !b.sessions[req.id].conn.phase.InGame?
    requires Dialogue(g, env, b.world, busy, s.conn, req).Enters?
    ensures var r := Perform(g, env, b, req).0;
            var o := Dialogue(g, env, b.world, busy, s.conn, req);
            && |r.acts| == 1 && r.acts[0].Enter? && Tracks(g, b.world, r)
            && Said(s, r.sessions[req.id], Voice(g, b.world, r.acts, req.id))
            && r.sessions[req.id].conn == s.conn.(phase := InGame, character := Some(o.character), room := Some(o.room),
                                                  view := r.sessions[req.id].conn.view)
  {
    hide Taken, SelectCharacter, Tracks, Voice, WriteAll, Said, Active, Choosing;
    ChecksNotEnter(g, env, req.id, s.conn);
    var intent := g.intent(s.conn, req.line);
    assert req.kind == Input && intent.Choose? && s.conn.phase.Authenticated?;
    EntersAt(g, b.world, s, b, req.id, busy, intent.choice);
  }

  lemma ChecksNotEnter<W>(g: Game<W>, env: Env, id: nat, c: Conn)
    ensures forall texts :: !Checking(g, env, id, c, texts).Enters?
  {
  }

  lemma SaysOutside<W>(g: Game<W>, env: Env, w: W, busy: set<nat>, c: Conn, req: Request)
    requires !c.phase.InGame?
    ensures var o := Dialogue(g, env, w, busy, c, req); o.Says? ==> !o.conn.phase.InGame?
  {
    hide Active;
  }

  lemma EnteredLooks<W>(g: Game<W>, w: W, s: Session, k: Lane<W>, id: nat, o: Outlook)
    requires id in k.sessions && o.Enters? && Settled(g, w, s, k.sessions[id], k.acts, id, Done, o) && Tracks(g, w, k)
    ensures var c := Observe(g, k, id, false); Settled(g, w, s, c.sessions[id], c.acts, id, Done, o)
  {
    ObserveSays(g, w, s, k, id, false);
    ObserveSteps(g, k, id, false);
    hide WriteAll, Voice, Said, Tracks;
  }

  lemma TurnSettles<W>(g: Game<W>, env: Env, lane: Lane<W>, req: Request, wasClosed: bool, busy: set<nat>)
    requires req.id in lane.sessions && lane.acts == [] && Restored(lane.sessions, req.id)
    requires forall c: nat :: Taken(lane.sessions, req.id, c) <==> c in busy
    requires Checked(env.users, lane.sessions[req.id]) && !lane.sessions[req.id].conn.phase.InGame?
    requires IsFresh(lane.sessions[req.id], req.sequence)
    ensures var t := Turn(g, env, lane, req, wasClosed);
            var s := lane.sessions[req.id];
            t.outcome.Some?
            && Settled(g, lane.world, s, t.lane.sessions[req.id], t.lane.acts, req.id, t.outcome.value, Dialogue(g, env, lane.world, busy, s.conn, req))
  {
    hide Taken, Execute, Settled, Observe, Dialogue, Tracks, Checked, Restored, Depart, Tell;
    var id := req.id;
    var s := lane.sessions[id];
    var o := Dialogue(g, env, lane.world, busy, s.conn, req);
    ExecuteSettles(g, env, lane, req, busy);
    SaysOutside(g, env, lane.world, busy, s.conn, req);
    var (k, outcome) := Execute(g, env, lane, req, false);
    SettledPhase(g, lane.world, s, k.sessions[id], k.acts, id, outcome, o);
    EntersByLine(g, env, lane.world, busy, s.conn, req);
    var open := !k.sessions[id].saved.closed && k.sessions[id].conn.phase.InGame?;
    if open {
      EnteredLooks(g, lane.world, s, k, id, o);
    }
    var done := if open then Observe(g, k, id, false) else k;
    var f := Turn(g, env, lane, req, wasClosed).lane;
    assert f.acts == done.acts && f.sessions[id].conn == done.sessions[id].conn && SameBox(done.sessions[id].saved, f.sessions[id].saved);
    SettledOn(g, lane.world, s, done.sessions[id], f.sessions[id], done.acts, id, outcome, o);
  }

  // Only a character that entered is in the game at the end of the command.
  lemma SettledPhase<W>(g: Game<W>, w: W, s: Session, f: Session, acts: seq<Act>, id: nat, outcome: Outcome, o: Outlook)
    requires Settled(g, w, s, f, acts, id, outcome, o) && !s.conn.phase.InGame? && (o.Says? ==> !o.conn.phase.InGame?)
    ensures !f.saved.closed && f.conn.phase.InGame? ==> o.Enters? && outcome == Done
  {
  }

  lemma EntersByLine<W>(g: Game<W>, env: Env, w: W, busy: set<nat>, c: Conn, req: Request)
    ensures Dialogue(g, env, w, busy, c, req).Enters? ==> req.kind == Input
  {
    hide Active;
  }

  // ---------------------------------------------------------------- what is committed

  // The characters that live sessions other than the requester play.
  ghost function Busy(users: map<nat, User>, rows: map<nat, Row>, now: int, id: nat): set<nat> {
    set j | j in rows && j != id && Current(rows[j], now) && !Revoked(users, rows[j].saved)
            && Playing(rows[j].closed, rows[j].saved.conn) :: rows[j].saved.conn.character.value
  }

  lemma BusyTaken<W>(g: Game<W>, env: Env, world: W, rows: map<nat, Row>, req: Request, c: nat)
    requires RowsOk(rows) && Loaded(rows, Sessions(rows, req, env.now), req)
    ensures Taken(Opening(g, env, world, Sessions(rows, req, env.now), req).sessions, req.id, c) <==>
            c in Busy(env.users, rows, env.now, req.id)
  {
    var sessions := Sessions(rows, req, env.now);
    var lane := Opening(g, env, world, sessions, req);
    forall j | j in sessions && j != req.id
      ensures j in rows && Current(rows[j], env.now) && lane.sessions[j].conn == rows[j].saved.conn
      ensures lane.sessions[j].saved.closed <==> rows[j].closed || Revoked(env.users, rows[j].saved)
    {
      assert RowOk(rows[j]);
      BystanderBegins(g, env, rows, sessions, req, world, j);
      CutIsRevoked(env.users, sessions, req, j);
    }
    hide Opening, Revoked, Shape;
    if c in Busy(env.users, rows, env.now, req.id) {
      var j :| j in rows && j != req.id && Current(rows[j], env.now) && !Revoked(env.users, rows[j].saved)
               && Playing(rows[j].closed, rows[j].saved.conn) && rows[j].saved.conn.character.value == c;
      assert j in sessions;
    }
  }

  // What is stored of a step: the connection, the outbox and whether the session is over.
  ghost predicate Stored<W>(g: Game<W>, w: W, c: Conn, before: Checkpoint, after: Checkpoint, run: Run, o: Outlook) {
    match o
    case Says(conn, texts) => run.outcome == Done && run.acts == [] && after.conn == conn && Heard(before, after, texts)
    case Ends(texts) =>
      run.outcome == Quit && run.acts == [] && after.closed && exists open: bool :: Heard(before, after.(closed := open), texts)
    case Refuses => run.outcome == Failed && run.acts == [] && after.conn == c && Heard(before, after, [g.notice(Refused)])
    case Enters(character, room) =>
      match run.outcome
      case Done =>
        run.acts != [] && run.acts[0].Enter? && Heard(before, after, Voice(g, w, run.acts, run.id))
        && after.conn == c.(phase := InGame, character := Some(character), room := Some(room), view := after.conn.view)
      case Failed => run.acts == [] && after.conn == c && Heard(before, after, [g.notice(Refused)])
      case Quit => after.closed
  }

  lemma SettledStored<W>(g: Game<W>, w: W, s: Session, f: Session, run: Run, o: Outlook)
    requires Settled(g, w, s, f, run.acts, run.id, run.outcome, o) && Size(s.saved.output) <= OUTBOX_LIMIT
    ensures Stored(g, w, s.conn, s.saved, f.saved.(conn := f.conn), run, o)
  {
    hide Said, Heard, Voice, Size;
    var d := f.saved.(conn := f.conn);
    match o
    case Says(_, texts) =>
      SaidHeard(s, f, texts);
      HeardBox(s.saved, f.saved, s.saved, d, texts);
    case Ends(texts) =>
      var before :| Said(s, before, texts) && SameBox(before.saved.(closed := true), f.saved);
      SaidHeard(s, before, texts);
      HeardBox(s.saved, before.saved, s.saved, d.(closed := before.saved.closed), texts);
    case Refuses =>
      SaidHeard(s, f, [g.notice(Refused)]);
      HeardBox(s.saved, f.saved, s.saved, d, [g.notice(Refused)]);
    case Enters(_, _) =>
      if run.outcome == Failed {
        SaidHeard(s, f, [g.notice(Refused)]);
        HeardBox(s.saved, f.saved, s.saved, d, [g.notice(Refused)]);
      } else if run.outcome == Done {
        SaidHeard(s, f, Voice(g, w, run.acts, run.id));
        HeardBox(s.saved, f.saved, s.saved, d, Voice(g, w, run.acts, run.id));
      }
  }

  // A step of the dialogue as the database sees it: whenever a dispatch executes a command
  // of a session that is not in play, what is stored is what the dialogue says.
  lemma DialogueStored<W>(g: Game<W>, env: Env, db: Database<W>, req: Request)
    requires RowsOk(db.rows)
    ensures var r := Dispatch(g, env, db, req);
            var rows := Sweep(db.rows, env.now);
            var s := OpeningSession(g, env, db.world, Sessions(rows, req, env.now), req);
            r.Committed? && r.run.Some? && !r.run.value.from.InGame? ==>
              && req.id in r.db.rows
              && Stored(g, db.world, s.conn, s.saved, r.db.rows[req.id].saved, r.run.value,
                        Dialogue(g, env, db.world, Busy(env.users, rows, env.now, req.id), s.conn, req))
  {
    hide Dispatch, Serve, Sweep, Stored, Shape, Dialogue, OpeningSession, Busy;
    DispatchServes(g, env, db, req);
    SweepOk(db.rows, env.now);
    var rows := Sweep(db.rows, env.now);
    var r := Dispatch(g, env, db, req);
    if r.Committed? && r.run.Some? && !r.run.value.from.InGame? {
      ServeStored(g, env, db, rows, req);
    }
  }

  lemma OpeningFits<W>(g: Game<W>, env: Env, world: W, rows: map<nat, Row>, sessions: map<nat, Session>, req: Request)
    requires Loaded(rows, sessions, req) && RowsOk(rows) && Acceptable(sessions[req.id], req)
    ensures Size(OpeningSession(g, env, world, sessions, req).saved.output) <= OUTBOX_LIMIT
  {
    StartOk(rows, req);
    RequesterBegins(g, env, rows, sessions, req, world);
    TrimKeeps(Start(rows, req).saved, req.ack);
    hide Opening, Cut, Trim;
  }

  lemma ServeStored<W>(g: Game<W>, env: Env, db: Database<W>, rows: map<nat, Row>, req: Request)
    requires RowsOk(rows) && Loaded(rows, Sessions(rows, req, env.now), req)
    requires var r := Serve(g, env, db, rows, Sessions(rows, req, env.now), req);
             r.Committed? && r.run.Some? && !r.run.value.from.InGame?
    ensures var r := Serve(g, env, db, rows, Sessions(rows, req, env.now), req);
            var s := OpeningSession(g, env, db.world, Sessions(rows, req, env.now), req);
            && req.id in r.db.rows
            && Stored(g, db.world, s.conn, s.saved, r.db.rows[req.id].saved, r.run.value,
                      Dialogue(g, env, db.world, Busy(env.users, rows, env.now, req.id), s.conn, req))
  {
    var sessions := Sessions(rows, req, env.now);
    var busy := Busy(env.users, rows, env.now, req.id);
    var lane := Opening(g, env, db.world, sessions, req);
    RecordOf(g, env, db, rows, sessions, req);
    ServeUnfold(g, env, db, rows, sessions, req);
    ClosingTurned(g, env, rows, sessions, req, db.world);
    OpeningFits(g, env, db.world, rows, sessions, req);
    OpeningActs(g, env, db.world, sessions, req);
    AllRestored(g, env, rows, sessions, req, db.world);
    OpeningConn(g, env, db.world, rows, sessions, req);
    RequesterDirty(g, env, rows, sessions, req, db.world);
    forall c: nat
      ensures Taken(lane.sessions, req.id, c) <==> c in busy
    {
      BusyTaken(g, env, db.world, rows, req, c);
    }
    var t := Closing(g, env, db.world, sessions, req);
    hide Serve, Opening, Turn, Turned1, Settled, Stored, Dialogue, Busy, Taken, Restored, Sessions, Size, Active, Start;
    TurnSettles(g, env, lane, req, sessions[req.id].saved.closed, busy);
    var run := Serve(g, env, db, rows, sessions, req).run.value;
    SettledStored(g, db.world, lane.sessions[req.id], t.lane.sessions[req.id], run,
                  Dialogue(g, env, db.world, busy, lane.sessions[req.id].conn, req));
  }

  // How a requester that is open and not revoked comes to its turn: as it was stored, with
  // acknowledged outputs gone; or, if another live session has taken over its character,
  // back at character selection and told so.
  lemma ComesToTurn<W>(g: Game<W>, env: Env, world: W, rows: map<nat, Row>, req: Request)
    requires RowsOk(rows) && Loaded(rows, Sessions(rows, req, env.now), req) && req.kind != Close
    requires !Start(rows, req).closed && !Revoked(env.users, Start(rows, req).saved)
    ensures var r := Start(rows, req).saved;
            var kept := r.(output := Trim(r.output, req.ack));
            var s := OpeningSession(g, env, world, Sessions(rows, req, env.now), req);
            if Playing(false, r.conn) && r.conn.character.value in Busy(env.users, rows, env.now, req.id) then
              s.conn == r.conn.(phase := Authenticated, character := None, room := None)
              && Heard(kept, s.saved, [g.notice(Elsewhere)])
            else s.conn == r.conn && s.saved == kept
  {
    var sessions := Sessions(rows, req, env.now);
    var r := Start(rows, req).saved;
    var s0 := Acknowledge(Hangup(sessions[req.id], req), req.ack);
    StartOk(rows, req);
    TrimKeeps(r, req.ack);
    assert Shape(s0.saved);
    RecheckFacts(g, env.users, s0);
    var base := Base(g, env, sessions, req);
    assert base[req.id].saved == s0.saved && base[req.id].conn == r.conn;
    var lane := Opening(g, env, world, sessions, req);
    assert lane.sessions[req.id] == Admit(g, base, req.id);
    if r.conn.phase.InGame? && r.conn.character.Some? {
      var c := r.conn.character.value;
      BusyTaken(g, env, world, rows, req, c);
      TakenSame(base, lane.sessions, req.id, c);
      hide Taken, Busy, Shape, Base;
      var moved := base[req.id].(conn := r.conn.(phase := Authenticated, character := None, room := None));
      WriteAllHeard(moved, [g.notice(Elsewhere)]);
      WriteOne(moved, g.notice(Elsewhere));
    }
  }

  // Nobody is signed in but by the confirmation of the code its own connection was given:
  // a session that becomes signed in was waiting for it, holds the credential confirmed,
  // and that credential is valid.
  lemma OwnTokenOnly<W>(g: Game<W>, env: Env, db: Database<W>, req: Request)
    requires RowsOk(db.rows)
    ensures var r := Dispatch(g, env, db, req);
            var rows := Sweep(db.rows, env.now);
            var c := OpeningSession(g, env, db.world, Sessions(rows, req, env.now), req).conn;
            r.Committed? && req.id in r.db.rows && !r.db.rows[req.id].closed
            && SignedIn(r.db.rows[req.id].saved.conn) && !SignedIn(c) ==>
              && Confirmed(env, req.id, c) && Active(env.users, env.pairings[req.id].credential)
              && c.phase.AwaitingAuth?
              && r.db.rows[req.id].saved.conn == c.(phase := Authenticated, credential := Some(env.pairings[req.id].credential))
  {
    hide Dispatch, Sweep, OpeningSession, Dialogue, Busy, Stored, Active, RowsOk, Sessions, Confirmed;
    DialogueStored(g, env, db, req);
    RanOrKept(g, env, db, req);
    var rows := Sweep(db.rows, env.now);
    var s := OpeningSession(g, env, db.world, Sessions(rows, req, env.now), req);
    var r := Dispatch(g, env, db, req);
    if r.Committed? && req.id in r.db.rows && !r.db.rows[req.id].closed
       && SignedIn(r.db.rows[req.id].saved.conn) && !SignedIn(s.conn) {
      SignedInStored(g, env, db.world, Busy(env.users, rows, env.now, req.id), s, r.db.rows[req.id].saved, r.run.value, req);
    }
  }

  lemma SignedInStored<W>(g: Game<W>, env: Env, w: W, busy: set<nat>, s: Session, after: Checkpoint, run: Run, req: Request)
    requires Stored(g, w, s.conn, s.saved, after, run, Dialogue(g, env, w, busy, s.conn, req))
    requires !SignedIn(s.conn) && !after.closed && SignedIn(after.conn)
    ensures Confirmed(env, req.id, s.conn) && Active(env.users, env.pairings[req.id].credential) && s.conn.phase.AwaitingAuth?
    ensures after.conn == s.conn.(phase := Authenticated, credential := Some(env.pairings[req.id].credential))
  {
    SignsInBy(g, env, w, busy, s.conn, req);
    hide Dialogue, Heard, Voice, Active;
  }

  // Without a command the connection stays as the turn found it.
  lemma RanOrKept<W>(g: Game<W>, env: Env, db: Database<W>, req: Request)
    requires RowsOk(db.rows)
    ensures var r := Dispatch(g, env, db, req);
            var rows := Sweep(db.rows, env.now);
            var c := OpeningSession(g, env, db.world, Sessions(rows, req, env.now), req).conn;
            r.Committed? ==>
              && req.id in r.db.rows && r.db.rows[req.id].saved.closed == r.db.rows[req.id].closed
              && (r.run.None? ==> r.db.rows[req.id].saved.conn == c)
              && (r.run.Some? ==> r.run.value.from == c.phase && r.run.value.kind == req.kind)
  {
    hide Serve, Dispatch, Sweep, Shape;
    DispatchServes(g, env, db, req);
    SweepOk(db.rows, env.now);
    var rows := Sweep(db.rows, env.now);
    if Dispatch(g, env, db, req).Committed? {
      ServeKept(g, env, db, rows, Sessions(rows, req, env.now), req);
    }
  }

  lemma ServeKept<W>(g: Game<W>, env: Env, db: Database<W>, rows: map<nat, Row>, sessions: map<nat, Session>, req: Request)
    requires Loaded(rows, sessions, req) && RowsOk(rows) && Serve(g, env, db, rows, sessions, req).Committed?
    ensures var r := Serve(g, env, db, rows, sessions, req);
            var c := OpeningSession(g, env, db.world, sessions, req).conn;
            && req.id in r.db.rows && r.db.rows[req.id].saved.closed == r.db.rows[req.id].closed
            && (r.run.None? ==> r.db.rows[req.id].saved.conn == c)
            && (r.run.Some? ==> r.run.value.from == c.phase && r.run.value.kind == req.kind)
  {
    RecordOf(g, env, db, rows, sessions, req);
    ServeUnfold(g, env, db, rows, sessions, req);
    ClosingTurned(g, env, rows, sessions, req, db.world);
    RequesterDirty(g, env, rows, sessions, req, db.world);
    hide Serve, Opening, Turn, Turned1, Shape;
  }

  lemma SignsInBy<W>(g: Game<W>, env: Env, w: W, busy: set<nat>, c: Conn, req: Request)
    requires !SignedIn(c)
    ensures var o := Dialogue(g, env, w, busy, c, req);
            && !o.Enters?
            && (o.Says? && SignedIn(o.conn) ==>
                  && Confirmed(env, req.id, c) && Active(env.users, env.pairings[req.id].credential)
                  && c.phase.AwaitingAuth?
                  && o.conn == c.(phase := Authenticated, credential := Some(env.pairings[req.id].credential)))
  {
    hide Active;
  }

  // Nobody plays but the character it chose by number from its own user's list, which no
  // other live session plays, in that character's home.
  lemma ChosenByNumber<W>(g: Game<W>, env: Env, db: Database<W>, req: Request)
    requires RowsOk(db.rows)
    ensures var r := Dispatch(g, env, db, req);
            var rows := Sweep(db.rows, env.now);
            var c := OpeningSession(g, env, db.world, Sessions(rows, req, env.now), req).conn;
            r.Committed? && req.id in r.db.rows && !r.db.rows[req.id].closed
            && r.db.rows[req.id].saved.conn.phase.InGame? && !c.phase.InGame? ==>
              && req.kind == Input && c.phase.Authenticated? && c.credential.Some?
              && g.intent(c, req.line).Choose?
              && var mine, n := g.characters(db.world, c.credential.value.user), g.intent(c, req.line).choice;
                 && 1 <= n <= |mine| && mine[n - 1] !in Busy(env.users, rows, env.now, req.id)
                 && r.db.rows[req.id].saved.conn.character == Some(mine[n - 1])
                 && r.db.rows[req.id].saved.conn.room.Some?
                 && r.db.rows[req.id].saved.conn.room == g.home(db.world, mine[n - 1])
  {
    hide Dispatch, Sweep, OpeningSession, Dialogue, Busy, Stored, Active, RowsOk, Sessions;
    DialogueStored(g, env, db, req);
    RanOrKept(g, env, db, req);
    var rows := Sweep(db.rows, env.now);
    var s := OpeningSession(g, env, db.world, Sessions(rows, req, env.now), req);
    var busy := Busy(env.users, rows, env.now, req.id);
    var r := Dispatch(g, env, db, req);
    if r.Committed? && req.id in r.db.rows && !r.db.rows[req.id].closed
       && r.db.rows[req.id].saved.conn.phase.InGame? && !s.conn.phase.InGame? {
      EnteredStored(g, env, db.world, busy, s, r.db.rows[req.id].saved, r.run.value, req);
      EntersBy(g, env, db.world, busy, s.conn, req);
    }
  }

  lemma EnteredStored<W>(g: Game<W>, env: Env, w: W, busy: set<nat>, s: Session, after: Checkpoint, run: Run, req: Request)
    requires Stored(g, w, s.conn, s.saved, after, run, Dialogue(g, env, w, busy, s.conn, req))
    requires !s.conn.phase.InGame? && !after.closed && after.conn.phase.InGame?
    ensures var o := Dialogue(g, env, w, busy, s.conn, req);
            o.Enters? && after.conn.character == Some(o.character) && after.conn.room == Some(o.room)
  {
    SaysOutside(g, env, w, busy, s.conn, req);
    hide Dialogue, Heard, Voice;
  }

  lemma EntersBy<W>(g: Game<W>, env: Env, w: W, busy: set<nat>, c: Conn, req: Request)
    requires !c.phase.InGame?
    ensures var o := Dialogue(g, env, w, busy, c, req);
            o.Enters? ==>
              && req.kind == Input && c.phase.Authenticated? && c.credential.Some? && g.intent(c, req.line).Choose?
              && var mine, n := g.characters(w, c.credential.value.user), g.intent(c, req.line).choice;
                 1 <= n <= |mine| && mine[n - 1] !in busy && o.character == mine[n - 1] && g.home(w, mine[n - 1]) == Some(o.room)
  {
    hide Active;
  }
}
