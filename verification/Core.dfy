// `Core.dispatch` as it runs (internal/telnet/core.go, internal/telnet/server.go): the
// live sessions are rebuilt, changed in place and written back. Every method is proved
// against the function of CoreDispatch it implements.
module Core {
  import opened Wrappers
  import opened Terminalwire
  import opened CoreSession
  import opened CoreDispatch
  import opened PlayerHub

  // The transaction of one dispatch.
  class Transaction<W> {
    const game: Game<W>
    const env: Env
    const hub: Hub
    var world: W
    var sessions: map<nat, Session>
    var acts: seq<Act>

    constructor (game: Game<W>, env: Env, world: W, sessions: map<nat, Session>, hub: Hub)
      ensures this.game == game && this.env == env && this.hub == hub
      ensures this.world == world && this.sessions == sessions && acts == []
    {
      this.game, this.env, this.world, this.sessions, this.hub, acts := game, env, world, sessions, hub, [];
    }

    ghost function View(): Lane<W>
      reads this, hub
    {
      Lane(world, sessions, hub.players.Keys, acts)
    }

    // The hub knows the characters that other live sessions play.
    ghost predicate Claims(id: nat)
      reads this, hub
    {
      forall c: nat :: c in hub.owners && hub.owners[c] != id <==> Taken(sessions, id, c)
    }

    // ------------------------------------------------------------ output

    method Send(id: nat, data: string)
      requires id in sessions
      modifies this`sessions
      ensures sessions == old(sessions)[id := Write(old(sessions)[id], data)]
    {
      var s := sessions[id];
      var n, i := |data|, 0;
      while i < |s.saved.output|
        invariant 0 <= i <= |s.saved.output| && n == |data| + Size(s.saved.output[..i])
      {
        assert s.saved.output[..i + 1][..i] == s.saved.output[..i];
        n := n + |s.saved.output[i].data|;
        i := i + 1;
      }
      assert s.saved.output[..i] == s.saved.output;
      if n > OUTBOX_LIMIT {
        s := s.(saved := s.saved.(closed := true), dirty := true);
      } else {
        var next := s.saved.nextOutput + 1;
        s := s.(saved := s.saved.(nextOutput := next, output := s.saved.output + [Output(next, data)]), dirty := true);
      }
      sessions := sessions[id := s];
    }

    method SendAll(id: nat, lines: seq<string>)
      requires id in sessions
      modifies this`sessions
      ensures sessions == old(sessions)[id := WriteAll(old(sessions)[id], lines)]
    {
      var i := 0;
      while i < |lines|
        invariant 0 <= i <= |lines|
        invariant sessions == old(sessions)[id := WriteAll(old(sessions)[id], lines[..i])]
      {
        assert lines[..i + 1][..i] == lines[..i];
        Send(id, lines[i]);
        i := i + 1;
      }
      assert lines[..i] == lines;
    }

    method TrimOutbox(id: nat, ack: nat)
      requires id in sessions
      modifies this`sessions
      ensures sessions == old(sessions)[id := Acknowledge(old(sessions)[id], ack)]
    {
      var s := sessions[id];
      while s.saved.output != [] && s.saved.output[0].id <= ack
        invariant s == old(sessions)[id].(saved := old(sessions)[id].saved.(output := s.saved.output))
        invariant Trim(s.saved.output, ack) == Trim(old(sessions)[id].saved.output, ack)
        decreases |s.saved.output|
      {
        s := s.(saved := s.saved.(output := s.saved.output[1..]));
      }
      sessions := sessions[id := s.(dirty := true)];
    }

    // Broadcasts go out in the order the command produced them.
    method Deliver(id: nat, mail: seq<Mail>)
      requires id in sessions
      modifies this`sessions
      ensures View() == Post(old(View()), id, mail)
    {
      var i := 0;
      ghost var before := sessions;
      while i < |mail|
        invariant 0 <= i <= |mail| && sessions.Keys == before.Keys
        invariant forall j :: j in before ==>
                    (sessions[j] == if j == id || j in hub.players then WriteAll(before[j], Inbox(mail[..i], j)) else before[j])
      {
        var to := mail[i].to;
        forall j: nat
          ensures Inbox(mail[..i + 1], j) == if j == to then Inbox(mail[..i], j) + [mail[i].data] else Inbox(mail[..i], j)
        {
          InboxNext(mail, i, j);
        }
        if to in sessions && (to == id || to in hub.players) {
          WriteNext(before[to], Inbox(mail[..i], to), mail[i].data);
          Send(to, mail[i].data);
        }
        i := i + 1;
      }
      assert mail[..i] == mail;
    }

    static lemma InboxNext(mail: seq<Mail>, i: nat, j: nat)
      requires i < |mail|
      ensures Inbox(mail[..i + 1], j) == if j == mail[i].to then Inbox(mail[..i], j) + [mail[i].data] else Inbox(mail[..i], j)
    {
      assert mail[..i + 1][..i] == mail[..i];
    }

    static lemma WriteNext(s: Session, lines: seq<string>, data: string)
      ensures WriteAll(s, lines + [data]) == Write(WriteAll(s, lines), data)
    {
      assert (lines + [data])[..|lines|] == lines;
    }

    // A departure reaches every player still in the hub.
    method Broadcast(text: string)
      modifies this`sessions
      ensures sessions == map j | j in old(sessions) ::
                if j in hub.players then Write(old(sessions)[j], text) else old(sessions)[j]
    {
      var todo := hub.players.Keys;
      while todo != {}
        invariant todo <= hub.players.Keys && sessions.Keys == old(sessions).Keys
        invariant forall j :: j in sessions ==>
                    (sessions[j] == if j in hub.players && j !in todo then Write(old(sessions)[j], text) else old(sessions)[j])
        decreases todo
      {
        var j :| j in todo;
        todo := todo - {j};
        if j in sessions {
          Send(j, text);
        }
      }
    }

    // ------------------------------------------------------------ checkpoints

    method RestoreAndCheck(id: nat)
      requires id in sessions
      modifies this`sessions
      ensures sessions == old(sessions)[id := Recheck(game, env.users, old(sessions)[id])]
    {
      var s := sessions[id];
      s := s.(conn := s.saved.conn);
      sessions := sessions[id := s];
      if !s.saved.closed && SignedIn(s.conn) {
        var (t, quit) := CheckSession(game, env.users, s);
        if quit {
          sessions := sessions[id := t.(saved := t.saved.(output := [], closed := true), dirty := true)];
          Send(id, game.notice(Ended));
        }
      }
    }

    method CaptureSessions()
      modifies this`sessions
      ensures View() == CaptureAll(old(View()))
    {
      var todo := sessions.Keys;
      while todo != {}
        invariant todo <= sessions.Keys == old(sessions).Keys
        invariant forall j :: j in sessions ==> sessions[j] == if j in todo then old(sessions)[j] else Capture(old(sessions)[j])
        decreases todo
      {
        var j :| j in todo;
        todo := todo - {j};
        sessions := sessions[j := sessions[j].(saved := sessions[j].saved.(conn := sessions[j].conn))];
      }
    }

    // Back to the savepoint: world, checkpoints and the record of kept changes.
    method RollBackTo(beforeWorld: W, before: map<nat, Session>, beforeActs: seq<Act>, id: nat)
      modifies this
      ensures View() == RollBack(Lane(beforeWorld, before, {}, beforeActs), old(hub.players.Keys), id)
    {
      world, sessions, acts := beforeWorld, before, beforeActs;
      var todo := sessions.Keys;
      while todo != {}
        invariant todo <= sessions.Keys == before.Keys && world == beforeWorld && acts == beforeActs
        invariant forall j :: j in sessions ==>
                    (sessions[j] == if j in todo then before[j] else before[j].(conn := before[j].saved.conn, dirty := j == id))
        decreases todo
      {
        var j :| j in todo;
        todo := todo - {j};
        sessions := sessions[j := sessions[j].(conn := sessions[j].saved.conn, dirty := j == id)];
      }
    }

    // ------------------------------------------------------------ commands

    method SetConnection(id: nat, c: Conn)
      requires id in sessions
      modifies this`sessions
      ensures View() == SetConn(old(View()), id, c)
    {
      sessions := sessions[id := sessions[id].(conn := c)];
    }

    method Run(id: nat, e: Effect<W>, act: Act) returns (outcome: Outcome)
      requires id in sessions && sessions[id].conn.phase.InGame? && sessions[id].conn.character.Some?
      modifies this, hub
      ensures (View(), outcome) == Apply(old(View()), id, e, act)
    {
      ghost var lane := View();
      var c := sessions[id].conn.(room := e.room, view := e.view);
      SetConnection(id, c);
      ghost var moved := View();
      hub.Update(id, c);
      ghost var listed := if c.room.Some? then moved.(players := moved.players + {id}) else moved;
      assert View().players == listed.players;
      world, acts := e.world, acts + [act];
      assert View() == listed.(world := e.world, acts := listed.acts + [act]);
      Deliver(id, e.mail);
      outcome := e.outcome;
    }

    method BeginSignIn(id: nat)
      requires id in sessions
      modifies this
      ensures View() == StartSignIn(game, old(View()), id)
    {
      SetConnection(id, sessions[id].conn.(phase := AwaitingUsername));
      SendAll(id, [game.notice(Username)]);
    }

    method CheckSignIn(id: nat, notify: bool) returns (outcome: Outcome)
      requires id in sessions
      modifies this
      ensures (View(), outcome) == CheckAuthentication(game, env, old(View()), id, notify)
    {
      var c := sessions[id].conn;
      if id !in env.pairings || env.pairings[id].token != c.token {
        if notify {
          SendAll(id, [game.notice(Pending)]);
        }
        return Done;
      }
      if !Active(env.users, env.pairings[id].credential) {
        return Quit;
      }
      SetConnection(id, c.(credential := Some(env.pairings[id].credential), phase := Authenticated));
      SendAll(id, [game.notice(Accepted)]);
      return Done;
    }

    method Select(id: nat, choice: nat) returns (outcome: Outcome)
      requires id in sessions && Claims(id)
      modifies this, hub
      ensures (View(), outcome) == SelectCharacter(game, old(View()), id, choice)
    {
      var c := sessions[id].conn;
      if c.credential.None? {
        return Failed;
      }
      var mine := game.characters(world, c.credential.value.user);
      if choice < 1 || choice > |mine| {
        SendAll(id, [game.notice(Rejected)]);
        return Done;
      }
      var character := mine[choice - 1];
      var home := game.home(world, character);
      if home.None? {
        return Failed;
      }
      var granted := hub.Claim(character, id);
      if !granted {
        SetConnection(id, c.(character := None));
        SendAll(id, [game.notice(Online)]);
        return Done;
      }
      var d := c.(character := Some(character), room := home, phase := InGame);
      ghost var lane := View();
      SetConnection(id, d);
      ghost var entered := View();
      hub.Update(id, d);
      assert View().players == entered.players + {id};
      assert View() == entered.(players := entered.players + {id});
      hide Apply;
      var present := map j | j in sessions && (j == id || j in hub.players) :: sessions[j].conn;
      var e := game.enter(world, present, id);
      outcome := Run(id, e.(room := home), Enter(present, id));
    }

    method Follow(id: nat, intent: Intent) returns (outcome: Outcome)
      requires id in sessions && Claims(id)
      modifies this, hub
      ensures (View(), outcome) == FollowIntent(game, env, old(View()), id, intent)
    {
      var c := sessions[id].conn;
      match intent
      case Answer(lines, view) =>
        SetConnection(id, c.(view := view));
        SendAll(id, lines);
        return Done;
      case Leave(lines) =>
        SendAll(id, lines);
        return Quit;
      case Restart(view) =>
        if !c.phase.AwaitingUsername? {
          return Failed;
        }
        SetConnection(id, c.(view := view));
        BeginSignIn(id);
        return Done;
      case Name(username) =>
        if !(c.phase.AwaitingUsername? || c.phase.AwaitingAuth?) || env.challenge.None? {
          return Failed;
        }
        SetConnection(id, c.(view := game.named(c, username), token := env.challenge.value, phase := AwaitingAuth));
        SendAll(id, [game.notice(Instructions)]);
        return Done;
      case Check =>
        if !(c.phase.AwaitingAuth? || c.phase.Authenticated?) {
          return Failed;
        }
        outcome := CheckSignIn(id, true);
      case Choose(choice) =>
        if !c.phase.Authenticated? {
          return Failed;
        }
        outcome := Select(id, choice);
    }

    method HandleInput(id: nat, line: string) returns (outcome: Outcome)
      requires id in sessions && Claims(id)
      modifies this, hub
      ensures (View(), outcome) == ProcessInput(game, env, old(View()), id, line)
    {
      var (s, quit) := CheckSession(game, env.users, sessions[id]);
      if quit {
        sessions := sessions[id := s];
        return Quit;
      }
      assert s == sessions[id];
      if s.conn.phase.InGame? {
        if s.conn.character.None? {
          return Failed;
        }
        var present := map j | j in sessions && (j == id || j in hub.players) :: sessions[j].conn;
        outcome := Run(id, game.play(world, present, id, line), Play(present, id, line));
      } else if s.conn.phase.Connected? {
        BeginSignIn(id);
        return Done;
      } else {
        outcome := Follow(id, game.intent(s.conn, line));
      }
    }

    method RunCommand(req: Request) returns (outcome: Outcome)
      requires req.id in sessions && Claims(req.id)
      modifies this, hub
      ensures (View(), outcome) == Perform(game, env, old(View()), req)
    {
      match req.kind
      case Open =>
        SendAll(req.id, [game.notice(Welcome)]);
        BeginSignIn(req.id);
        return Done;
      case Input => outcome := HandleInput(req.id, req.line);
      case Poll =>
        if sessions[req.id].conn.phase.AwaitingAuth? {
          outcome := CheckSignIn(req.id, false);
        } else {
          return Done;
        }
      case Close => return Quit;
    }

    method ObserveRoom(id: nat, notify: bool)
      requires id in sessions
      modifies this
      ensures View() == Observe(game, old(View()), id, notify)
    {
      var s := sessions[id];
      if s.conn.room.None? {
        return;
      }
      var o := game.observe(world, s.saved.scene, s.conn.room.value, notify);
      SendAll(id, o.lines);
      var t := sessions[id];
      sessions := sessions[id := t.(saved := t.saved.(scene := o.scene))];
      world, acts := o.world, acts + [Look(s.saved.scene, s.conn.room.value, notify)];
    }

    // ------------------------------------------------------------ the turn

    ghost function Rechecked(): (r: map<nat, Session>)
      reads this
      ensures r.Keys == sessions.Keys
    {
      map j | j in sessions :: Recheck(game, env.users, sessions[j])
    }

    static ghost predicate Plays(s: Session, character: nat) {
      Playing(s.saved.closed, s.conn) && s.conn.character == Some(character)
    }

    // The claims of the sessions enrolled so far: all but `todo`, the requester apart.
    static ghost predicate OwnersOk(base: map<nat, Session>, id: nat, todo: set<nat>, owners: map<nat, nat>) {
      && (forall c :: c in owners ==>
            owners[c] in base && owners[c] !in todo && owners[c] != id && Plays(base[owners[c]], c))
      && (forall j, c :: j in base && j !in todo && j != id && Plays(base[j], c) ==> c in owners && owners[c] == j)
    }

    static ghost predicate PlayersOk(base: map<nat, Session>, id: nat, todo: set<nat>, players: set<nat>) {
      players == set j | j in base && j !in todo && j != id && j in Players(base)
    }

    static lemma OwnersNext(base: map<nat, Session>, id: nat, todo: set<nat>, owners: map<nat, nat>, j: nat)
      requires OwnersOk(base, id, todo, owners) && j in base && j in todo
      ensures var s := base[j];
              if j != id && Playing(s.saved.closed, s.conn) then
                var c := s.conn.character.value;
                if c in owners && owners[c] != j then Conflict(base, id) else OwnersOk(base, id, todo - {j}, owners[c := j])
              else OwnersOk(base, id, todo - {j}, owners)
    {
      var s := base[j];
      if j != id && Playing(s.saved.closed, s.conn) {
        var c := s.conn.character.value;
        assert Plays(s, c);
        if c in owners && owners[c] != j {
          assert Plays(base[owners[c]], c);
        }
      }
    }

    static lemma PlayersNext(base: map<nat, Session>, id: nat, todo: set<nat>, players: set<nat>, j: nat)
      requires PlayersOk(base, id, todo, players) && j in base && j in todo
      ensures PlayersOk(base, id, todo - {j}, if j != id && j in Players(base) then players + {j} else players)
    {
    }

    static lemma PlayersListed(base: map<nat, Session>, id: nat, j: nat, players: set<nat>, listed: set<nat>)
      requires j in base
      requires listed == if j != id && Playing(base[j].saved.closed, base[j].conn) && base[j].conn.room.Some?
                         then players + {j} else players
      ensures listed == if j != id && j in Players(base) then players + {j} else players
    {
    }

    // Restores and rechecks one session; any but the requester then claims its character.
    method EnrollOne(id: nat, j: nat) returns (ok: bool)
      requires j in sessions
      modifies this`sessions, hub
      ensures sessions == old(sessions)[j := Recheck(game, env.users, old(sessions)[j])]
      ensures var s := sessions[j];
              if j != id && Playing(s.saved.closed, s.conn) then
                var c := s.conn.character.value;
                && ok == (c in old(hub.owners) ==> old(hub.owners)[c] == j)
                && (ok ==> hub.owners == old(hub.owners)[c := j]
                           && hub.players.Keys == old(hub.players.Keys) + (if s.conn.room.Some? then {j} else {}))
              else ok && hub.owners == old(hub.owners) && hub.players == old(hub.players)
    {
      hide Recheck;
      ghost var players := hub.players.Keys;
      RestoreAndCheck(j);
      var s := sessions[j];
      ok := true;
      if j != id && Playing(s.saved.closed, s.conn) {
        ok := hub.Claim(s.conn.character.value, j);
        if ok {
          hub.Update(j, s.conn);
          assert hub.players.Keys == players + (if s.conn.room.Some? then {j} else {});
        }
      }
    }

    // Restores and rechecks every session; the others claim their characters first.
    method Enroll(id: nat) returns (ok: bool)
      requires id in sessions && hub.owners == map[] && hub.players == map[]
      modifies this`sessions, hub
      ensures sessions.Keys == old(sessions.Keys)
      ensures ok <==> !Conflict(old(Rechecked()), id)
      ensures ok ==> Claims(id) && View() == Begin(game, world, old(Rechecked()), id).(acts := acts)
    {
      hide Recheck, Admit, Begin, Conflict, Taken, OwnersOk, PlayersOk, Playing;
      ghost var base := Rechecked();
      ghost var loaded := sessions;
      var todo := sessions.Keys;
      NobodyEnrolled(base, id);
      assert hub.players.Keys == {};
      while todo != {}
        invariant todo <= sessions.Keys == base.Keys
        invariant forall j :: j in sessions ==> sessions[j] == if j in todo then loaded[j] else base[j]
        invariant OwnersOk(base, id, todo, hub.owners) && PlayersOk(base, id, todo, hub.players.Keys)
        decreases todo
      {
        var j :| j in todo;
        assert base[j] == Recheck(game, env.users, sessions[j]);
        var owners, players := hub.owners, hub.players.Keys;
        OwnersNext(base, id, todo, owners, j);
        PlayersNext(base, id, todo, players, j);
        var enrolled := EnrollOne(id, j);
        if !enrolled {
          return false;
        }
        PlayersListed(base, id, j, players, hub.players.Keys);
        todo := todo - {j};
      }
      assert sessions == base;
      EveryoneEnrolled(base, id, hub.owners, hub.players.Keys);
      AdmitRequester(id);
      return true;
    }

    static lemma NobodyEnrolled(base: map<nat, Session>, id: nat)
      ensures OwnersOk(base, id, base.Keys, map[]) && PlayersOk(base, id, base.Keys, {})
    {
    }

    static lemma EveryoneEnrolled(base: map<nat, Session>, id: nat, owners: map<nat, nat>, players: set<nat>)
      requires OwnersOk(base, id, {}, owners) && PlayersOk(base, id, {}, players)
      ensures !Conflict(base, id)
      ensures forall c: nat :: c in owners && owners[c] != id <==> Taken(base, id, c)
      ensures players == set j | j in base && j != id && j in Players(base)
    {
      forall j, k | j in base && k in base && j != id && k != id && Playing(base[j].saved.closed, base[j].conn)
                    && Playing(base[k].saved.closed, base[k].conn) && base[j].conn.character == base[k].conn.character
        ensures j == k
      {
        var c := base[j].conn.character.value;
        assert base[k].conn.character == Some(c);
        assert Plays(base[j], c) && Plays(base[k], c);
        assert c in owners && owners[c] == j && owners[c] == k;
      }
      forall c: nat
        ensures c in owners && owners[c] != id <==> Taken(base, id, c)
      {
        if Taken(base, id, c) {
          var j :| j in base && j != id && Playing(base[j].saved.closed, base[j].conn) && base[j].conn.character == Some(c);
          assert Plays(base[j], c);
        }
      }
    }

    static lemma ClaimsKept(a: map<nat, Session>, b: map<nat, Session>, id: nat, c: nat)
      requires a.Keys == b.Keys
      requires forall j :: j in a && j != id ==> a[j].saved.closed == b[j].saved.closed && a[j].conn == b[j].conn
      ensures Taken(a, id, c) <==> Taken(b, id, c)
    {
    }

    // The requester claims its character last, or goes back to character selection.
    method AdmitRequester(id: nat)
      requires id in sessions && Claims(id)
      requires hub.players.Keys == set j | j in sessions && j != id && j in Players(sessions)
      modifies this`sessions, hub
      ensures Claims(id) && View() == Begin(game, world, old(sessions), id).(acts := acts)
    {
      ghost var base := sessions;
      var s := sessions[id];
      if Playing(s.saved.closed, s.conn) {
        var claimed := hub.Claim(s.conn.character.value, id);
        if !claimed {
          sessions := sessions[id := s.(conn := s.conn.(phase := Authenticated, character := None, room := None))];
          Send(id, game.notice(Elsewhere));
        } else {
          hub.Update(id, s.conn);
        }
      }
      assert sessions == base[id := Admit(game, base, id)] by {
        hide Taken;
      }
      forall c: nat
        ensures Taken(sessions, id, c) <==> Taken(base, id, c)
      {
        ClaimsKept(sessions, base, id, c);
      }
      assert hub.players.Keys == Players(sessions);
    }

    method ExecuteCommand(req: Request, wasPlaying: bool) returns (outcome: Outcome)
      requires req.id in sessions && Claims(req.id)
      modifies this, hub
      ensures (View(), outcome) == Execute(game, env, old(View()), req, wasPlaying)
    {
      var id := req.id;
      if req.kind == Input && wasPlaying {
        ObserveRoom(id, true);
      }
      CaptureSessions();
      forall c: nat
        ensures Taken(sessions, id, c) <==> Taken(old(sessions), id, c)
      {
        ClaimsKept(sessions, old(sessions), id, c);
      }
      ghost var saved := View();
      var beforeWorld, before, beforeActs := world, sessions, acts;
      hide Perform, RollBack, Observe;
      outcome := RunCommand(req);
      ghost var after := View();
      match outcome {
        case Done =>
        case Quit =>
          var s := sessions[id];
          sessions := sessions[id := s.(saved := s.saved.(closed := true))];
          hub.Remove(id);
        case Failed =>
          RollBackTo(beforeWorld, before, beforeActs, id);
          RolledBackLane(saved, beforeWorld, before, beforeActs, hub.players.Keys, id);
          SendAll(id, [game.notice(Refused)]);
      }
      assert View() == Keep(game, saved, after, outcome, id);
      sessions := sessions[id := sessions[id].(sequence := req.sequence)];
    }

    static lemma RolledBackLane(lane: Lane<W>, w: W, sessions: map<nat, Session>, acts: seq<Act>, players: set<nat>, id: nat)
      requires lane.world == w && lane.sessions == sessions && lane.acts == acts
      ensures RollBack(Lane(w, sessions, {}, acts), players, id) == RollBack(lane, players, id)
    {
    }

    method AnnounceDeparture(id: nat, character: nat)
      modifies this`sessions, hub
      ensures View() == Depart(game, old(View()), id, character)
    {
      ghost var players := hub.players.Keys;
      hub.Remove(id);
      assert hub.players.Keys == players - {id};
      Broadcast(game.notice(Left(character)));
    }

    method ReportRoom(id: nat, poll: bool)
      requires id in sessions
      modifies this
      ensures View() == LookAround(game, old(View()), id, poll)
    {
      hide Observe;
      ObserveRoom(id, poll);
      if poll && sessions[id].saved.output != [] {
        SendAll(id, [game.notice(Prompt)]);
      }
    }

    // The part of the dispatch between the recheck of the sessions and the write-back.
    method TakeTurn(req: Request, wasClosed: bool) returns (outcome: Option<Outcome>, departed: bool)
      requires req.id in sessions && Claims(req.id)
      modifies this, hub
      ensures Turned(View(), outcome, departed) == Turn(game, env, old(View()), req, wasClosed)
    {
      hide Execute, Depart, LookAround, Claims;
      var id := req.id;
      var c := sessions[id].conn;
      var wasPlaying := c.phase.InGame? && c.character.Some?;
      var go := IsFresh(sessions[id], req.sequence);
      outcome := None;
      if go {
        var o := ExecuteCommand(req, wasPlaying);
        outcome := Some(o);
      }
      departed := !wasClosed && sessions[id].saved.closed && wasPlaying;
      if departed {
        AnnounceDeparture(id, c.character.value);
      }
      var s := sessions[id];
      if go && !s.saved.closed && s.conn.phase.InGame? {
        ReportRoom(id, req.kind == Poll);
      }
      var t := sessions[id];
      if t.saved.closed && req.sequence == t.sequence + 1 {
        t := t.(sequence := req.sequence);
      }
      sessions := sessions[id := t];
    }
  }

  // The stateless core over its database: the session rows and the world.
  class Core<W> {
    const game: Game<W>
    var rows: map<nat, Row>
    var world: W

    constructor (game: Game<W>, rows: map<nat, Row>, world: W)
      ensures this.game == game && this.rows == rows && this.world == world
    {
      this.game, this.rows, this.world := game, rows, world;
    }

    // One request, answered in one transaction of the global command lane. No reply
    // means the transaction was abandoned: the edge sends the request again.
    method Dispatch(req: Request, env: Env) returns (reply: Option<Response>)
      modifies this
      ensures match CoreDispatch.Dispatch(game, env, Database(old(rows), old(world)), req)
              case Aborted => reply == None && rows == old(rows) && world == old(world)
              case Answered(r) => reply == Some(r) && rows == old(rows) && world == old(world)
              case Committed(db, r, _, _, _) => reply == Some(r) && rows == db.rows && world == db.world
    {
      hide Serve;
      if env.fault || req.sequence < 1 || |req.line| > LINE_LIMIT {
        return None;
      }
      var table := map i | i in rows :: if rows[i].lastSeen < env.now - LEASE then rows[i].(character := None) else rows[i];
      table := map i | i in table && table[i].lastSeen >= env.now - TOMBSTONE :: table[i];
      assert table == Sweep(rows, env.now);
      var loaded := map i | i in table && (Current(table[i], env.now) || i == req.id) :: LoadRow(table[i]);
      assert loaded == Load(table, req.id, env.now);
      if req.id !in loaded {
        if req.kind == Close {
          return Some(Response(req.sequence, [], true, false));
        }
        if req.sequence != 1 || req.kind != Open {
          return Some(Response(req.sequence, [], false, true));
        }
        loaded := loaded[req.id := NewSession(req.edge)];
      }
      reply := ServeRequest(req, env, table, loaded);
    }

    method ServeRequest(req: Request, env: Env, table: map<nat, Row>, loaded: map<nat, Session>) returns (reply: Option<Response>)
      requires req.id in loaded && loaded.Keys <= table.Keys + {req.id}
      modifies this
      ensures match Serve(game, env, Database(old(rows), old(world)), table, loaded, req)
              case Aborted => reply == None && rows == old(rows) && world == old(world)
              case Answered(r) => reply == Some(r) && rows == old(rows) && world == old(world)
              case Committed(db, r, _, _, _) => reply == Some(r) && rows == db.rows && world == db.world
    {
      hide Turn, Conflict, Begin, Base, Store, Unique, Cut;
      var id := req.id;
      var s := loaded[id];
      if s.edge != req.edge {
        return None;
      }
      var wasClosed := s.saved.closed;
      if req.kind == Close {
        s := s.(saved := s.saved.(closed := true));
        if req.sequence > s.sequence {
          s := s.(sequence := req.sequence);
        }
      }
      if req.sequence > s.sequence + 1 || req.ack > s.saved.nextOutput {
        return None;
      }
      var tx, enrolled := StartTransaction(req, env, loaded, s);
      if !enrolled {
        return None;
      }
      SequenceKept(game, env, world, loaded, req);
      if IsFresh(tx.sessions[id], req.sequence) && req.kind == Open && tx.sessions[id].sequence != 0 {
        return None;
      }
      reply := Conclude(tx, req, table, wasClosed);
    }

    // Trims the requester's outbox, then restores, rechecks and enrolls every session.
    method StartTransaction(req: Request, env: Env, loaded: map<nat, Session>, s: Session) returns (tx: Transaction<W>, enrolled: bool)
      requires req.id in loaded && s == Hangup(loaded[req.id], req)
      ensures fresh(tx) && fresh(tx.hub) && tx.game == game && tx.env == env && tx.sessions.Keys == loaded.Keys
      ensures var base := Base(game, env, loaded, req);
              && (enrolled <==> !Conflict(base, req.id))
              && (enrolled ==> tx.Claims(req.id) && tx.View() == Begin(game, world, base, req.id))
    {
      hide Conflict, Begin, Base, Acknowledge, Hangup, Recheck, Taken;
      var id := req.id;
      var hub := new Hub();
      tx := new Transaction(game, env, world, loaded[id := s], hub);
      tx.TrimOutbox(id, req.ack);
      ghost var base: map<nat, Session> := Base(game, env, loaded, req);
      LoadedBase(game, env, loaded, req, tx.sessions);
      assert tx.Rechecked() == base;
      SequenceKept(game, env, world, loaded, req);
      enrolled := tx.Enroll(id);
    }

    // Takes the turn and commits, unless the unique index refuses what it would store.
    method Conclude(tx: Transaction<W>, req: Request, table: map<nat, Row>, wasClosed: bool) returns (reply: Option<Response>)
      requires req.id in tx.sessions && tx.sessions.Keys <= table.Keys + {req.id} && tx.Claims(req.id)
      modifies this, tx, tx.hub
      ensures var t := Turn(tx.game, tx.env, old(tx.View()), req, wasClosed);
              var stored := Store(table, t.lane.sessions, req.id, tx.env.now);
              var s := t.lane.sessions[req.id];
              if Unique(stored) then
                rows == stored && world == t.lane.world
                && reply == Some(Response(s.sequence, s.saved.output, s.saved.closed, false))
              else
                rows == old(rows) && world == old(world) && reply == None
    {
      hide Turn, Store, Unique, tx.Claims;
      var outcome, departed := tx.TakeTurn(req, wasClosed);
      var stored := WriteBack(table, tx.sessions, req.id, tx.env.now);
      if !Unique(stored) {
        return None;
      }
      rows, world := stored, tx.world;
      var t := tx.sessions[req.id];
      return Some(Response(t.sequence, t.saved.output, t.saved.closed, false));
    }

    static lemma LoadedBase(g: Game<W>, env: Env, loaded: map<nat, Session>, req: Request, sessions: map<nat, Session>)
      requires req.id in loaded
      requires sessions == loaded[req.id := Acknowledge(Hangup(loaded[req.id], req), req.ack)]
      ensures Base(g, env, loaded, req) == map j | j in sessions :: Recheck(g, env.users, sessions[j])
    {
      hide Acknowledge, Hangup, Recheck;
    }

    static lemma SequenceKept(g: Game<W>, env: Env, world: W, loaded: map<nat, Session>, req: Request)
      requires req.id in loaded
      ensures Begin(g, world, Base(g, env, loaded, req), req.id).sessions[req.id].sequence == Hangup(loaded[req.id], req).sequence
      ensures Begin(g, world, Base(g, env, loaded, req), req.id).acts == []
    {
    }

    // Only dirty sessions are written, and only the requester's lease is renewed.
    static method WriteBack(table: map<nat, Row>, sessions: map<nat, Session>, id: nat, now: int) returns (stored: map<nat, Row>)
      requires sessions.Keys <= table.Keys + {id}
      ensures stored == Store(table, sessions, id, now)
    {
      hide SaveRow;
      stored := table;
      var todo := sessions.Keys;
      while todo != {}
        invariant todo <= sessions.Keys && stored.Keys <= table.Keys + sessions.Keys && table.Keys <= stored.Keys
        invariant forall j :: j in stored ==>
                    j in (if j in todo then table else Store(table, sessions, id, now))
                    && stored[j] == if j in todo then table[j] else Store(table, sessions, id, now)[j]
        invariant forall j :: j in sessions && j !in todo ==> j in stored
        decreases todo
      {
        var j :| j in todo;
        todo := todo - {j};
        if sessions[j].dirty || j !in table {
          stored := stored[j := SaveRow(sessions[j], if j == id then now else table[j].lastSeen)];
        }
      }
    }
  }
}
