// What one `Core.dispatch` commits (internal/telnet/core.go), as a function of the
// stored rows, the world, the request and the environment. The game itself is a
// parameter: every theorem about this function holds for every game.
module CoreDispatch {
  import opened Wrappers
  import opened Terminalwire
  import opened CoreSession

  // Times are microseconds. A session row keeps its presence lease for two minutes
  // and serves as a sequence tombstone for twenty-four hours.
  const LEASE := 120_000_000
  const TOMBSTONE := 86_400_000_000
  const LINE_LIMIT := 1024

  datatype Row = Row(edge: nat, sequence: nat, character: Option<nat>, saved: Checkpoint, closed: bool, lastSeen: int)

  datatype Database<+W> = Database(rows: map<nat, Row>, world: W)

  datatype Pairing = Pairing(credential: Credential, token: string)

  // What a dispatch reads besides the session rows and the world: the transaction
  // time, the users table, browser pairings, a fresh sign-in token if Redis grants
  // one, and whether anything it depends on fails before the commit.
  datatype Env = Env(now: int, users: map<nat, User>, pairings: map<nat, Pairing>, challenge: Option<string>, fault: bool)

  datatype Outcome = Done | Quit | Failed

  datatype Mail = Mail(to: nat, data: string)

  datatype Effect<+W> = Effect(world: W, room: Option<nat>, view: string, mail: seq<Mail>, outcome: Outcome)

  datatype Sighting<+W> = Sighting(world: W, scene: string, lines: seq<string>)

  datatype Notice =
    | Welcome | Username | Instructions | Pending | Accepted | Rejected | Ended | Elsewhere | Online
    | Refused | Prompt | Left(character: nat)

  // How a line typed outside the game is read.
  datatype Intent =
    | Answer(lines: seq<string>, view: string) // help, terminal display, rejected input
    | Leave(lines: seq<string>)
    | Restart(view: string)                    // terminal command before sign-in
    | Name(username: string)                   // a valid username, or `renew`
    | Check
    | Choose(choice: nat)

  // The game: commands of a character in play, entering the realm, looking at a room,
  // and the texts. `owner` maps a character to its user.
  datatype Game<!W> = Game(
    notice: Notice -> string,
    intent: (Conn, string) -> Intent,
    named: (Conn, string) -> string,
    owner: nat -> nat,
    characters: (W, nat) -> seq<nat>,
    home: (W, nat) -> Option<nat>,
    enter: (W, map<nat, Conn>, nat) -> Effect<W>,
    play: (W, map<nat, Conn>, nat, string) -> Effect<W>,
    observe: (W, string, nat, bool) -> Sighting<W>)

  // A call into the game that changed the world.
  datatype Act =
    | Look(scene: string, room: nat, notify: bool)
    | Play(present: map<nat, Conn>, id: nat, line: string)
    | Enter(present: map<nat, Conn>, id: nat)

  // A command the dispatch executed: the state of the connection it found, how it ended,
  // and the world changes the dispatch kept.
  datatype Run = Run(id: nat, sequence: nat, kind: Kind, line: string, from: Phase, outcome: Outcome, acts: seq<Act>)

  datatype Result<+W> =
    | Aborted
    | Answered(reply: Response)
    | Committed(db: Database<W>, reply: Response, run: Option<Run>, cut: set<nat>, departed: bool)

  // The transaction in progress: the live sessions by id, and who the player hub lists.
  datatype Lane<+W> = Lane(world: W, sessions: map<nat, Session>, players: set<nat>, acts: seq<Act>)

  // ---------------------------------------------------------------- loading

  // Leases lapse and tombstones expire before the sessions are read.
  function Sweep(rows: map<nat, Row>, now: int): map<nat, Row> {
    map i | i in rows && rows[i].lastSeen >= now - TOMBSTONE ::
      if rows[i].lastSeen < now - LEASE then rows[i].(character := None) else rows[i]
  }

  predicate Current(r: Row, now: int) {
    !r.closed && r.lastSeen > now - LEASE
  }

  function LoadRow(r: Row): Session {
    Session(r.edge, r.sequence, r.saved, r.saved.conn, false)
  }

  function Load(rows: map<nat, Row>, id: nat, now: int): map<nat, Session> {
    map i | i in rows && (Current(rows[i], now) || i == id) :: LoadRow(rows[i])
  }

  const FRESH_CONN := Conn(Connected, None, None, None, "", "")

  function NewSession(edge: nat): Session {
    Session(edge, 0, Checkpoint(FRESH_CONN, [], 0, false, ""), FRESH_CONN, false)
  }

  // ---------------------------------------------------------------- admission

  // A close notification closes the session and may jump the sequence forward.
  function Hangup(s: Session, req: Request): Session {
    if req.kind != Close then s
    else s.(saved := s.saved.(closed := true),
            sequence := if req.sequence > s.sequence then req.sequence else s.sequence)
  }

  function Acknowledge(s: Session, ack: nat): Session {
    s.(saved := s.saved.(output := Trim(s.saved.output, ack)), dirty := true)
  }

  // checkSession: a signed-in session whose credential no longer holds must quit.
  function CheckSession<W>(g: Game<W>, users: map<nat, User>, s: Session): (r: (Session, bool)) {
    if !SignedIn(s.conn) then (s, false)
    else if s.conn.credential.None? then (s, true)
    else if Active(users, s.conn.credential.value) then (s, false)
    else (Write(s, g.notice(Ended)), true)
  }

  predicate Revoked(users: map<nat, User>, c: Checkpoint) {
    !c.closed && SignedIn(c.conn) && (c.conn.credential.None? || !Active(users, c.conn.credential.value))
  }

  // Restore the connection; a revoked session loses its outbox and is closed.
  function Recheck<W>(g: Game<W>, users: map<nat, User>, s: Session): Session {
    var s := s.(conn := s.saved.conn);
    if s.saved.closed || !SignedIn(s.conn) then s
    else
      var (t, quit) := CheckSession(g, users, s);
      if quit then Write(t.(saved := t.saved.(output := [], closed := true), dirty := true), g.notice(Ended)) else t
  }

  // Another live session already plays this character.
  predicate Taken(sessions: map<nat, Session>, id: nat, character: nat) {
    exists j :: j in sessions && j != id && Playing(sessions[j].saved.closed, sessions[j].conn)
             && sessions[j].conn.character == Some(character)
  }

  // Two sessions other than the requester play one character.
  predicate Conflict(sessions: map<nat, Session>, id: nat) {
    exists j :: j in sessions && j != id && Playing(sessions[j].saved.closed, sessions[j].conn)
             && exists k :: k in sessions && k != id && k != j
                  && Playing(sessions[k].saved.closed, sessions[k].conn)
                  && sessions[k].conn.character == sessions[j].conn.character
  }

  // A requester whose character was taken over goes back to character selection.
  function Admit<W>(g: Game<W>, sessions: map<nat, Session>, id: nat): Session
    requires id in sessions
  {
    var s := sessions[id];
    if Playing(s.saved.closed, s.conn) && Taken(sessions, id, s.conn.character.value) then
      Write(s.(conn := s.conn.(phase := Authenticated, character := None, room := None)), g.notice(Elsewhere))
    else s
  }

  // hub.update lists only players that stand in a room.
  function Players(sessions: map<nat, Session>): set<nat> {
    set j | j in sessions && Playing(sessions[j].saved.closed, sessions[j].conn) && sessions[j].conn.room.Some?
  }

  // ---------------------------------------------------------------- commands

  function Tell<W>(lane: Lane<W>, id: nat, lines: seq<string>): (r: Lane<W>)
    requires id in lane.sessions
    ensures r.sessions.Keys == lane.sessions.Keys
  {
    lane.(sessions := lane.sessions[id := WriteAll(lane.sessions[id], lines)])
  }

  function SetConn<W>(lane: Lane<W>, id: nat, c: Conn): (r: Lane<W>)
    requires id in lane.sessions
    ensures r.sessions.Keys == lane.sessions.Keys
  {
    lane.(sessions := lane.sessions[id := lane.sessions[id].(conn := c)])
  }

  function Inbox(mail: seq<Mail>, to: nat): seq<string> {
    if mail == [] then []
    else Inbox(mail[..|mail| - 1], to) +
         (if mail[|mail| - 1].to == to then [mail[|mail| - 1].data] else [])
  }

  // Broadcasts reach the players in the hub; the requester also hears itself.
  function Post<W>(lane: Lane<W>, id: nat, mail: seq<Mail>): (r: Lane<W>)
    ensures r.sessions.Keys == lane.sessions.Keys
  {
    lane.(sessions := map j | j in lane.sessions ::
      if j == id || j in lane.players then WriteAll(lane.sessions[j], Inbox(mail, j)) else lane.sessions[j])
  }

  function Present<W>(lane: Lane<W>, id: nat): map<nat, Conn> {
    map j | j in lane.sessions && (j == id || j in lane.players) :: lane.sessions[j].conn
  }

  // A command in play may change the room and the view of the player, never who plays.
  function Apply<W>(lane: Lane<W>, id: nat, e: Effect<W>, act: Act): (r: (Lane<W>, Outcome))
    requires id in lane.sessions
    ensures r.0.sessions.Keys == lane.sessions.Keys
  {
    var c := lane.sessions[id].conn.(room := e.room, view := e.view);
    var moved := SetConn(lane, id, c);
    var listed := if c.room.Some? then moved.(players := moved.players + {id}) else moved;
    (Post(listed.(world := e.world, acts := listed.acts + [act]), id, e.mail), e.outcome)
  }

  function StartSignIn<W>(g: Game<W>, lane: Lane<W>, id: nat): (r: Lane<W>)
    requires id in lane.sessions
    ensures r.sessions.Keys == lane.sessions.Keys
  {
    Tell(SetConn(lane, id, lane.sessions[id].conn.(phase := AwaitingUsername)), id, [g.notice(Username)])
  }

  function CheckAuthentication<W>(g: Game<W>, env: Env, lane: Lane<W>, id: nat, notify: bool): (r: (Lane<W>, Outcome))
    requires id in lane.sessions
    ensures r.0.sessions.Keys == lane.sessions.Keys
  {
    var c := lane.sessions[id].conn;
    if id !in env.pairings || env.pairings[id].token != c.token then
      (if notify then Tell(lane, id, [g.notice(Pending)]) else lane, Done)
    else if !Active(env.users, env.pairings[id].credential) then
      (lane, Quit)
    else
      var d := c.(credential := Some(env.pairings[id].credential), phase := Authenticated);
      (Tell(SetConn(lane, id, d), id, [g.notice(Accepted)]), Done)
  }

  function RequestSignIn<W>(g: Game<W>, env: Env, lane: Lane<W>, id: nat, username: string): (r: (Lane<W>, Outcome))
    requires id in lane.sessions
    ensures r.0.sessions.Keys == lane.sessions.Keys
  {
    var c := lane.sessions[id].conn;
    if env.challenge.None? then (lane, Failed)
    else
      var d := c.(view := g.named(c, username), token := env.challenge.value, phase := AwaitingAuth);
      (Tell(SetConn(lane, id, d), id, [g.notice(Instructions)]), Done)
  }

  // Claiming a character succeeds unless another live session plays it.
  function SelectCharacter<W>(g: Game<W>, lane: Lane<W>, id: nat, choice: nat): (r: (Lane<W>, Outcome))
    requires id in lane.sessions
    ensures r.0.sessions.Keys == lane.sessions.Keys
  {
    var c := lane.sessions[id].conn;
    if c.credential.None? then (lane, Failed)
    else
      var mine := g.characters(lane.world, c.credential.value.user);
      if choice < 1 || choice > |mine| then (Tell(lane, id, [g.notice(Rejected)]), Done)
      else
        var character := mine[choice - 1];
        var home := g.home(lane.world, character);
        if home.None? then (lane, Failed)
        else if Taken(lane.sessions, id, character) then
          (Tell(SetConn(lane, id, c.(character := None)), id, [g.notice(Online)]), Done)
        else
          var d := c.(character := Some(character), room := home, phase := InGame);
          var entered := SetConn(lane, id, d);
          var listed := entered.(players := entered.players + {id});
          var e := g.enter(lane.world, Present(listed, id), id);
          Apply(listed, id, e.(room := home), Enter(Present(listed, id), id))
  }

  // A line typed before the character is in play.
  function FollowIntent<W>(g: Game<W>, env: Env, lane: Lane<W>, id: nat, intent: Intent): (r: (Lane<W>, Outcome))
    requires id in lane.sessions
    ensures r.0.sessions.Keys == lane.sessions.Keys
  {
    var c := lane.sessions[id].conn;
    match intent
    case Answer(lines, view) => (Tell(SetConn(lane, id, c.(view := view)), id, lines), Done)
    case Leave(lines) => (Tell(lane, id, lines), Quit)
    case Restart(view) =>
      if c.phase.AwaitingUsername?
      then (StartSignIn(g, SetConn(lane, id, c.(view := view)), id), Done) else (lane, Failed)
    case Name(username) =>
      if c.phase.AwaitingUsername? || c.phase.AwaitingAuth?
      then RequestSignIn(g, env, lane, id, username) else (lane, Failed)
    case Check =>
      if c.phase.AwaitingAuth? || c.phase.Authenticated?
      then CheckAuthentication(g, env, lane, id, true) else (lane, Failed)
    case Choose(choice) =>
      if c.phase.Authenticated? then SelectCharacter(g, lane, id, choice) else (lane, Failed)
  }

  function ProcessInput<W>(g: Game<W>, env: Env, lane: Lane<W>, id: nat, line: string): (r: (Lane<W>, Outcome))
    requires id in lane.sessions
    ensures r.0.sessions.Keys == lane.sessions.Keys
  {
    var (s, quit) := CheckSession(g, env.users, lane.sessions[id]);
    if quit then (lane.(sessions := lane.sessions[id := s]), Quit)
    else if s.conn.phase.InGame? then
      if s.conn.character.None? then (lane, Failed)
      else Apply(lane, id, g.play(lane.world, Present(lane, id), id, line), Play(Present(lane, id), id, line))
    else if s.conn.phase.Connected? then (StartSignIn(g, lane, id), Done)
    else FollowIntent(g, env, lane, id, g.intent(s.conn, line))
  }

  function Perform<W>(g: Game<W>, env: Env, lane: Lane<W>, req: Request): (r: (Lane<W>, Outcome))
    requires req.id in lane.sessions
    ensures r.0.sessions.Keys == lane.sessions.Keys
  {
    match req.kind
    case Open => (StartSignIn(g, Tell(lane, req.id, [g.notice(Welcome)]), req.id), Done)
    case Input => ProcessInput(g, env, lane, req.id, req.line)
    case Poll =>
      if lane.sessions[req.id].conn.phase.AwaitingAuth?
      then CheckAuthentication(g, env, lane, req.id, false) else (lane, Done)
    case Close => (lane, Quit)
  }

  // observeRoom: report changes in the room since the last look.
  function Observe<W>(g: Game<W>, lane: Lane<W>, id: nat, notify: bool): (r: Lane<W>)
    requires id in lane.sessions
    ensures r.sessions.Keys == lane.sessions.Keys
  {
    var s := lane.sessions[id];
    if s.conn.room.None? then lane
    else
      var o := g.observe(lane.world, s.saved.scene, s.conn.room.value, notify);
      var t := WriteAll(s, o.lines);
      lane.(world := o.world, acts := lane.acts + [Look(s.saved.scene, s.conn.room.value, notify)],
            sessions := lane.sessions[id := t.(saved := t.saved.(scene := o.scene))])
  }

  function Capture(s: Session): Session {
    s.(saved := s.saved.(conn := s.conn))
  }

  function CaptureAll<W>(lane: Lane<W>): (r: Lane<W>)
    ensures r.sessions.Keys == lane.sessions.Keys
  {
    lane.(sessions := map j | j in lane.sessions :: Capture(lane.sessions[j]))
  }

  // Back to the savepoint: every session is restored and only the requester stays dirty.
  function RollBack<W>(before: Lane<W>, players: set<nat>, id: nat): (r: Lane<W>)
    ensures r.sessions.Keys == before.sessions.Keys
  {
    before.(players := players,
            sessions := map j | j in before.sessions ::
              before.sessions[j].(conn := before.sessions[j].saved.conn, dirty := j == id))
  }

  function Retire<W>(lane: Lane<W>, id: nat): (r: Lane<W>)
    requires id in lane.sessions
    ensures r.sessions.Keys == lane.sessions.Keys
  {
    var s := lane.sessions[id];
    lane.(sessions := lane.sessions[id := s.(saved := s.saved.(closed := true))], players := lane.players - {id})
  }

  // What each outcome keeps of the command run since the savepoint.
  function Keep<W>(g: Game<W>, before: Lane<W>, after: Lane<W>, outcome: Outcome, id: nat): (r: Lane<W>)
    requires id in before.sessions && after.sessions.Keys == before.sessions.Keys
    ensures r.sessions.Keys == before.sessions.Keys
  {
    match outcome
    case Done => after
    case Quit => Retire(after, id)
    case Failed => Tell(RollBack(before, after.players, id), id, [g.notice(Refused)])
  }

  // The savepoint around one command.
  function Execute<W>(g: Game<W>, env: Env, lane: Lane<W>, req: Request, wasPlaying: bool): (r: (Lane<W>, Outcome))
    requires req.id in lane.sessions
    ensures r.0.sessions.Keys == lane.sessions.Keys
  {
    var seen := if req.kind == Input && wasPlaying then Observe(g, lane, req.id, true) else lane;
    var before := CaptureAll(seen);
    var (after, outcome) := Perform(g, env, before, req);
    var kept := Keep(g, before, after, outcome, req.id);
    var s := kept.sessions[req.id];
    (kept.(sessions := kept.sessions[req.id := s.(sequence := req.sequence)]), outcome)
  }

  // ---------------------------------------------------------------- after the command

  // The departure is announced to every other player in the hub.
  function Depart<W>(g: Game<W>, lane: Lane<W>, id: nat, character: nat): (r: Lane<W>)
    ensures r.sessions.Keys == lane.sessions.Keys
  {
    lane.(players := lane.players - {id},
          sessions := map j | j in lane.sessions ::
            if j in lane.players - {id} then Write(lane.sessions[j], g.notice(Left(character))) else lane.sessions[j])
  }

  function LookAround<W>(g: Game<W>, lane: Lane<W>, id: nat, poll: bool): (r: Lane<W>)
    requires id in lane.sessions
    ensures r.sessions.Keys == lane.sessions.Keys
  {
    var seen := Observe(g, lane, id, poll);
    if poll && seen.sessions[id].saved.output != [] then Tell(seen, id, [g.notice(Prompt)]) else seen
  }

  // A closed session still advances by one, so its edge is answered in step.
  function Advance(s: Session, sequence: nat): Session {
    if s.saved.closed && sequence == s.sequence + 1 then s.(sequence := sequence) else s
  }

  predicate IsFresh(s: Session, sequence: nat) {
    sequence == s.sequence + 1 && !s.saved.closed
  }

  datatype Turned<+W> = Turned(lane: Lane<W>, outcome: Option<Outcome>, departed: bool)

  // The part of a dispatch between the recheck of the sessions and the write-back.
  function Turn<W>(g: Game<W>, env: Env, lane: Lane<W>, req: Request, wasClosed: bool): (r: Turned<W>)
    requires req.id in lane.sessions
    ensures r.lane.sessions.Keys == lane.sessions.Keys
  {
    var id := req.id;
    var c := lane.sessions[id].conn;
    var wasPlaying := c.phase.InGame? && c.character.Some?;
    var go := IsFresh(lane.sessions[id], req.sequence);
    var (ran, outcome) :=
      if go then var (l, o) := Execute(g, env, lane, req, wasPlaying); (l, Some(o)) else (lane, None);
    var departed := !wasClosed && ran.sessions[id].saved.closed && wasPlaying;
    var told := if departed then Depart(g, ran, id, c.character.value) else ran;
    var s := told.sessions[id];
    var done := if go && !s.saved.closed && s.conn.phase.InGame? then LookAround(g, told, id, req.kind == Poll) else told;
    Turned(done.(sessions := done.sessions[id := Advance(done.sessions[id], req.sequence)]), outcome, departed)
  }

  // ---------------------------------------------------------------- the dispatch

  function SaveRow(s: Session, lastSeen: int): Row {
    Row(s.edge, s.sequence, if Playing(s.saved.closed, s.conn) then s.conn.character else None,
        s.saved.(conn := s.conn), s.saved.closed, lastSeen)
  }

  // Dirty sessions are written; only the requester's lease is renewed.
  function Store(rows: map<nat, Row>, sessions: map<nat, Session>, id: nat, now: int): map<nat, Row>
    requires sessions.Keys <= rows.Keys + {id}
  {
    map j | j in rows.Keys + sessions.Keys ::
      if j in sessions && (sessions[j].dirty || j !in rows)
      then SaveRow(sessions[j], if j == id then now else rows[j].lastSeen)
      else rows[j]
  }

  // The unique index on the character of unclosed rows.
  predicate Unique(rows: map<nat, Row>) {
    forall i, j :: (i in rows && j in rows && i != j && !rows[i].closed && !rows[j].closed
                    && rows[i].character.Some?) ==> rows[i].character != rows[j].character
  }

  // Every loaded session restored and rechecked, the requester hung up and trimmed first.
  function Base<W>(g: Game<W>, env: Env, sessions: map<nat, Session>, req: Request): (r: map<nat, Session>)
    ensures r.Keys == sessions.Keys
  {
    map j | j in sessions ::
      Recheck(g, env.users,
              if j == req.id then Acknowledge(Hangup(sessions[j], req), req.ack) else sessions[j])
  }

  function Begin<W>(g: Game<W>, world: W, base: map<nat, Session>, id: nat): (r: Lane<W>)
    requires id in base
    ensures r.sessions.Keys == base.Keys
  {
    var sessions := base[id := Admit(g, base, id)];
    Lane(world, sessions, Players(sessions), [])
  }

  predicate Acceptable(s: Session, req: Request) {
    && s.edge == req.edge
    && req.sequence <= Hangup(s, req).sequence + 1
    && req.ack <= s.saved.nextOutput
  }

  predicate WellFormed(req: Request) {
    req.sequence >= 1 && |req.line| <= LINE_LIMIT
  }

  // Sessions this dispatch revoked: their outboxes were withdrawn.
  function Cut(users: map<nat, User>, sessions: map<nat, Session>, req: Request): set<nat> {
    set j | j in sessions && Revoked(users, (if j == req.id then Hangup(sessions[j], req) else sessions[j]).saved)
  }

  // The record of the turn, if it executed a command. `opening` is the requester before it.
  function Record<W>(req: Request, opening: Session, t: Turned<W>): Option<Run> {
    if t.outcome.None? then None
    else Some(Run(req.id, req.sequence, req.kind, req.line, opening.conn.phase, t.outcome.value, t.lane.acts))
  }

  function Serve<W>(g: Game<W>, env: Env, db: Database<W>, rows: map<nat, Row>, sessions: map<nat, Session>, req: Request): Result<W>
    requires req.id in sessions
    requires sessions.Keys <= rows.Keys + {req.id}
  {
    var s := sessions[req.id];
    var base := Base(g, env, sessions, req);
    if !Acceptable(s, req) || Conflict(base, req.id) then Aborted
    else
      var lane := Begin(g, db.world, base, req.id);
      if IsFresh(lane.sessions[req.id], req.sequence) && req.kind == Open && s.sequence != 0 then Aborted
      else
        var t := Turn(g, env, lane, req, s.saved.closed);
        var stored := Store(rows, t.lane.sessions, req.id, env.now);
        if !Unique(stored) then Aborted
        else
          var answered := t.lane.sessions[req.id];
          Committed(Database(stored, t.lane.world),
                    Response(answered.sequence, answered.saved.output, answered.saved.closed, false),
                    Record(req, lane.sessions[req.id], t),
                    if t.outcome == Some(Failed) then {} else Cut(env.users, sessions, req),
                    t.departed)
  }

  function Dispatch<W>(g: Game<W>, env: Env, db: Database<W>, req: Request): Result<W> {
    if env.fault || !WellFormed(req) then Aborted
    else
      var rows := Sweep(db.rows, env.now);
      var sessions := Load(rows, req.id, env.now);
      if req.id in sessions then Serve(g, env, db, rows, sessions, req)
      else if req.kind == Close then Answered(Response(req.sequence, [], true, false))
      else if req.sequence != 1 || req.kind != Open then Answered(Response(req.sequence, [], false, true))
      else Serve(g, env, db, rows, sessions[req.id := NewSession(req.edge)], req)
  }
}
