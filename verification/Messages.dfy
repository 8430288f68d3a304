// Who hears what: the data every committed dispatch adds to the outboxes of the sessions
// that did not send the request.
module Messages {
  import opened Wrappers
  import opened Terminalwire
  import opened CoreSession
  import opened CoreDispatch
  import opened DispatchFacts
  import opened RowFacts
  import opened Failures
  import opened Acts
  import opened WorldReplay

  // ---------------------------------------------------------------- outboxes

  function Total(texts: seq<string>): nat {
    if texts == [] then 0 else |texts[0]| + Total(texts[1..])
  }

  // The texts in order, under the IDs after n.
  function Numbered(texts: seq<string>, n: nat): seq<Output> {
    seq(|texts|, i requires 0 <= i < |texts| => Output(n + 1 + i, texts[i]))
  }

  predicate Fits(c: Checkpoint, texts: seq<string>) {
    Size(c.output) + Total(texts) <= 64 * 1024
  }

  // Exactly these texts were added to the outbox: all of them, if they fit; otherwise those
  // before the first that does not, which closes the session.
  ghost predicate Heard(c: Checkpoint, d: Checkpoint, texts: seq<string>) {
    if Fits(c, texts) then
      d.output == c.output + Numbered(texts, c.nextOutput) && d.nextOutput == c.nextOutput + |texts| && d.closed == c.closed
    else
      d.closed && exists k :: 0 <= k < |texts| && FullAt(c, d, texts, k)
  }

  ghost predicate FullAt(c: Checkpoint, d: Checkpoint, texts: seq<string>, k: nat)
    requires k < |texts|
  {
    && Fits(c, texts[..k]) && !Fits(c, texts[..k + 1])
    && |c.output| + k <= |d.output| && d.output[..|c.output| + k] == c.output + Numbered(texts[..k], c.nextOutput)
  }

  lemma {:induction false} TotalNext(texts: seq<string>, text: string)
    ensures Total(texts + [text]) == Total(texts) + |text|
  {
    if texts != [] {
      assert (texts + [text])[1..] == texts[1..] + [text];
      TotalNext(texts[1..], text);
    }
  }

  lemma NumberedNext(texts: seq<string>, text: string, n: nat)
    ensures Numbered(texts + [text], n) == Numbered(texts, n) + [Output(n + 1 + |texts|, text)]
  {
  }

  lemma {:induction false} SizeNumbered(out: seq<Output>, texts: seq<string>, n: nat)
    ensures Size(out + Numbered(texts, n)) == Size(out) + Total(texts)
  {
    if texts == [] {
      assert out + Numbered(texts, n) == out;
    } else {
      var m := |texts| - 1;
      SizeNumbered(out, texts[..m], n);
      assert texts == texts[..m] + [texts[m]];
      hide Size, Numbered, Total;
      var last := Output(n + 1 + m, texts[m]);
      SizeAppend(out + Numbered(texts[..m], n), last);
      NumberedNext(texts[..m], texts[m], n);
      assert out + (Numbered(texts[..m], n) + [last]) == out + Numbered(texts[..m], n) + [last];
      TotalNext(texts[..m], texts[m]);
    }
  }

  lemma HeardNext(c: Checkpoint, s: Session, texts: seq<string>, text: string)
    requires Heard(c, s.saved, texts)
    ensures Heard(c, Write(s, text).saved, texts + [text])
  {
    var all := texts + [text];
    var d := Write(s, text).saved;
    TotalNext(texts, text);
    assert all[..|texts|] == texts;
    if Fits(c, texts) {
      SizeNumbered(c.output, texts, c.nextOutput);
      if Fits(c, all) {
        assert Numbered(all, c.nextOutput) == Numbered(texts, c.nextOutput) + [Output(c.nextOutput + 1 + |texts|, text)];
      } else {
        assert all[..|texts| + 1] == all;
        assert FullAt(c, d, all, |texts|);
      }
    } else {
      var k :| 0 <= k < |texts| && FullAt(c, s.saved, texts, k);
      assert all[..k] == texts[..k] && all[..k + 1] == texts[..k + 1];
      assert d.output[..|c.output| + k] == s.saved.output[..|c.output| + k];
      assert FullAt(c, d, all, k);
    }
  }

  lemma {:induction false} WriteAllHeard(s: Session, texts: seq<string>)
    requires Size(s.saved.output) <= OUTBOX_LIMIT
    ensures Heard(s.saved, WriteAll(s, texts).saved, texts)
  {
    if texts == [] {
      assert s.saved.output + Numbered([], s.saved.nextOutput) == s.saved.output;
    } else {
      var n := |texts| - 1;
      WriteAllHeard(s, texts[..n]);
      HeardNext(s.saved, WriteAll(s, texts[..n]), texts[..n], texts[n]);
      assert texts == texts[..n] + [texts[n]];
    }
  }

  lemma WriteLast(s: Session, texts: seq<string>, text: string)
    ensures WriteAll(s, texts + [text]) == Write(WriteAll(s, texts), text)
  {
    assert (texts + [text])[..|texts|] == texts;
  }

  lemma {:induction false} WriteJoin(s: Session, a: seq<string>, b: seq<string>)
    ensures WriteAll(s, a + b) == WriteAll(WriteAll(s, a), b)
  {
    if b == [] {
      assert a + b == a;
    } else {
      var n := |b| - 1;
      WriteJoin(s, a, b[..n]);
      assert b == b[..n] + [b[n]] && a + b == a + b[..n] + [b[n]];
      hide WriteAll, Write;
      WriteLast(s, a + b[..n], b[n]);
      WriteLast(WriteAll(s, a), b[..n], b[n]);
    }
  }

  // ---------------------------------------------------------------- mail

  // The texts addressed to a session, in order.
  function Addressed(mail: seq<Mail>, to: nat): seq<string> {
    if mail == [] then []
    else (if mail[0].to == to then [mail[0].data] else []) + Addressed(mail[1..], to)
  }

  lemma {:induction false} AddressedJoin(a: seq<Mail>, b: seq<Mail>, to: nat)
    ensures Addressed(a + b, to) == Addressed(a, to) + Addressed(b, to)
  {
    if a == [] {
      assert a + b == b;
    } else {
      assert (a + b)[1..] == a[1..] + b;
      AddressedJoin(a[1..], b, to);
    }
  }

  lemma {:induction false} InboxAddressed(mail: seq<Mail>, to: nat)
    ensures Inbox(mail, to) == Addressed(mail, to)
  {
    if mail != [] {
      var n := |mail| - 1;
      InboxAddressed(mail[..n], to);
      AddressedJoin(mail[..n], [mail[n]], to);
      assert mail == mail[..n] + [mail[n]];
      assert [mail[n]][1..] == [];
    }
  }

  // What the game has people told when it is called: in play and on entering the realm.
  function ActMail<W>(g: Game<W>, w: W, act: Act): seq<Mail> {
    match act
    case Look(_, _, _) => []
    case Play(present, id, line) => g.play(w, present, id, line).mail
    case Enter(present, id) => g.enter(w, present, id).mail
  }

  // The mail of a series of calls, each in the world the ones before it left.
  function MailOf<W>(g: Game<W>, w: W, acts: seq<Act>): seq<Mail> {
    if acts == [] then []
    else
      var n := |acts| - 1;
      MailOf(g, w, acts[..n]) + ActMail(g, ReplayActs(g, w, acts[..n]), acts[n])
  }

  lemma MailNext<W>(g: Game<W>, w: W, acts: seq<Act>, act: Act)
    ensures MailOf(g, w, acts + [act]) == MailOf(g, w, acts) + ActMail(g, ReplayActs(g, w, acts), act)
  {
    assert (acts + [act])[..|acts|] == acts;
  }

  // ---------------------------------------------------------------- one turn

  function Hears(s: Session, listed: bool, texts: seq<string>): Session {
    if listed then WriteAll(s, texts) else s
  }

  // The game is shown the requester and exactly the players in lane a.
  ghost predicate Shown<W>(a: Lane<W>, id: nat, act: Act) {
    act.Look? ||
    var present := act.present;
    && act.id == id && id in present
    && forall j :: j != id ==> (j in present <==> j in a.sessions && j in a.players)
                               && (j in present ==> present[j] == a.sessions[j].conn)
  }

  // Since lane a, players have heard the mail of what was done, and others nothing.
  ghost predicate Spoken<W>(g: Game<W>, a: Lane<W>, b: Lane<W>, id: nat) {
    && b.sessions.Keys == a.sessions.Keys && b.players + {id} == a.players + {id}
    && Tracks(g, a.world, b)
    && (forall k :: 0 <= k < |b.acts| ==> Shown(a, id, b.acts[k]))
    && forall j :: j in a.sessions && j != id ==>
         b.sessions[j] == Hears(a.sessions[j], j in a.players, Addressed(MailOf(g, a.world, b.acts), j))
  }

  lemma SpokenStart<W>(g: Game<W>, a: Lane<W>, id: nat)
    requires a.acts == []
    ensures Spoken(g, a, a, id)
  {
    assert forall j :: Addressed([], j) == [];
  }

  // Steps that touch only the requester and call nothing.
  lemma SpokenAside<W>(g: Game<W>, a: Lane<W>, b: Lane<W>, c: Lane<W>, id: nat)
    requires Spoken(g, a, b, id)
    requires c.sessions.Keys == b.sessions.Keys && c.players + {id} == b.players + {id} && c.world == b.world && c.acts == b.acts
    requires forall j :: j in b.sessions && j != id ==> c.sessions[j] == b.sessions[j]
    ensures Spoken(g, a, c, id)
  {
    hide Hears, Addressed, MailOf, Shown;
  }

  lemma PresentShown<W>(g: Game<W>, a: Lane<W>, b: Lane<W>, id: nat, line: string)
    requires Spoken(g, a, b, id) && id in b.sessions
    ensures Shown(a, id, Play(Present(b, id), id, line)) && Shown(a, id, Enter(Present(b, id), id))
  {
    forall j | j in a.sessions && j != id
      ensures b.sessions[j].conn == a.sessions[j].conn && (j in b.players <==> j in a.players)
    {
      WriteAllQuiet(a.sessions[j], Addressed(MailOf(g, a.world, b.acts), j));
      PlayersKept(a.players, b.players, id, j);
    }
    hide Hears, MailOf, Addressed, Tracks;
  }

  lemma ApplyHears<W>(g: Game<W>, w: W, b: Lane<W>, id: nat, e: Effect<W>, act: Act, s: Session, listed: bool, j: nat)
    requires id in b.sessions && j in b.sessions && j != id && (listed <==> j in b.players)
    requires b.world == ReplayActs(g, w, b.acts) && e.mail == ActMail(g, b.world, act)
    requires b.sessions[j] == Hears(s, listed, Addressed(MailOf(g, w, b.acts), j))
    ensures var c := Apply(b, id, e, act).0;
            c.sessions[j] == Hears(s, listed, Addressed(MailOf(g, w, b.acts + [act]), j)) && c.acts == b.acts + [act]
  {
    MailNext(g, w, b.acts, act);
    var before := MailOf(g, w, b.acts);
    AddressedJoin(before, e.mail, j);
    InboxAddressed(e.mail, j);
    WriteJoin(s, Addressed(before, j), Addressed(e.mail, j));
    hide MailOf, Addressed, WriteAll, ReplayActs, Inbox;
  }

  lemma ApplyLists<W>(b: Lane<W>, id: nat, e: Effect<W>, act: Act)
    requires id in b.sessions
    ensures Apply(b, id, e, act).0.players + {id} == b.players + {id}
  {
  }

  lemma SpokenApply<W>(g: Game<W>, a: Lane<W>, b: Lane<W>, id: nat, e: Effect<W>, act: Act)
    requires Spoken(g, a, b, id) && id in b.sessions && Shown(a, id, act)
    requires e.world == ActWorld(g, b.world, act) && e.mail == ActMail(g, b.world, act)
    ensures Spoken(g, a, Apply(b, id, e, act).0, id)
  {
    var c := Apply(b, id, e, act).0;
    ApplyLists(b, id, e, act);
    ApplyActs(b, id, e, act);
    hide Apply;
    ApplyTracks(g, a.world, b, id, e, act);
    assert b.world == ReplayActs(g, a.world, b.acts);
    hide Hears, Addressed, MailOf, Shown, ActMail, ActWorld, Tracks, ReplayActs;
    forall j | j in a.sessions && j != id
      ensures c.sessions[j] == Hears(a.sessions[j], j in a.players, Addressed(MailOf(g, a.world, c.acts), j))
    {
      PlayersKept(a.players, b.players, id, j);
      ApplyHears(g, a.world, b, id, e, act, a.sessions[j], j in a.players, j);
    }
  }

  lemma PlayersKept(a: set<nat>, b: set<nat>, id: nat, j: nat)
    requires a + {id} == b + {id} && j != id
    ensures j in a <==> j in b
  {
    assert j in a + {id} <==> j in b + {id};
  }

  lemma SpokenObserve<W>(g: Game<W>, a: Lane<W>, b: Lane<W>, id: nat, notify: bool)
    requires Spoken(g, a, b, id) && id in b.sessions
    ensures Spoken(g, a, Observe(g, b, id, notify), id)
  {
    ObserveTracks(g, a.world, b, id, notify);
    var s := b.sessions[id];
    if s.conn.room.Some? {
      MailNext(g, a.world, b.acts, Look(s.saved.scene, s.conn.room.value, notify));
      var m := MailOf(g, a.world, b.acts);
      assert m + [] == m;
    }
    hide Hears, Addressed, MailOf, ReplayActs, WriteAll;
  }

  lemma SpokenCapture<W>(g: Game<W>, a: Lane<W>, b: Lane<W>, id: nat)
    requires Spoken(g, a, b, id) && Restored(a.sessions, id)
    ensures Spoken(g, a, CaptureAll(b), id)
  {
    forall j | j in b.sessions && j != id
      ensures Capture(b.sessions[j]) == b.sessions[j]
    {
      WriteAllQuiet(a.sessions[j], Addressed(MailOf(g, a.world, b.acts), j));
    }
    hide Hears, Addressed, MailOf, Shown;
  }

  lemma SpokenTell<W>(g: Game<W>, a: Lane<W>, b: Lane<W>, id: nat, c: Conn, lines: seq<string>)
    requires Spoken(g, a, b, id) && id in b.sessions
    ensures Spoken(g, a, SetConn(b, id, c), id)
    ensures Spoken(g, a, Tell(b, id, lines), id)
    ensures Spoken(g, a, Tell(SetConn(b, id, c), id, lines), id)
  {
    hide WriteAll, Spoken;
    SpokenAside(g, a, b, SetConn(b, id, c), id);
    SpokenAside(g, a, b, Tell(b, id, lines), id);
    SpokenAside(g, a, SetConn(b, id, c), Tell(SetConn(b, id, c), id, lines), id);
  }

  lemma SpokenSelect<W>(g: Game<W>, a: Lane<W>, b: Lane<W>, id: nat, choice: nat)
    requires Spoken(g, a, b, id) && id in b.sessions
    ensures Spoken(g, a, SelectCharacter(g, b, id, choice).0, id)
  {
    hide Apply, Tell, Taken, Present, Spoken;
    var c := b.sessions[id].conn;
    if c.credential.Some? {
      var mine := g.characters(b.world, c.credential.value.user);
      if choice < 1 || choice > |mine| {
        SpokenTell(g, a, b, id, c, [g.notice(Rejected)]);
      } else if g.home(b.world, mine[choice - 1]).Some? {
        if Taken(b.sessions, id, mine[choice - 1]) {
          SpokenTell(g, a, b, id, c.(character := None), [g.notice(Online)]);
        } else {
          var home := g.home(b.world, mine[choice - 1]);
          var entered := SetConn(b, id, c.(character := Some(mine[choice - 1]), room := home, phase := InGame));
          var listed := entered.(players := entered.players + {id});
          SpokenTell(g, a, b, id, c.(character := Some(mine[choice - 1]), room := home, phase := InGame), []);
          SpokenListed(g, a, entered, id);
          PresentShown(g, a, listed, id, "");
          SpokenApply(g, a, listed, id, g.enter(b.world, Present(listed, id), id).(room := home), Enter(Present(listed, id), id));
        }
      }
    }
  }

  lemma SpokenListed<W>(g: Game<W>, a: Lane<W>, b: Lane<W>, id: nat)
    requires Spoken(g, a, b, id)
    ensures Spoken(g, a, b.(players := b.players + {id}), id)
  {
    hide Hears, Addressed, MailOf, ReplayActs, Shown;
  }

  lemma SpokenDialog<W>(g: Game<W>, a: Lane<W>, b: Lane<W>, id: nat, c: Conn)
    requires Spoken(g, a, b, id) && id in b.sessions
    ensures Spoken(g, a, StartSignIn(g, b, id), id)
    ensures Spoken(g, a, StartSignIn(g, SetConn(b, id, c), id), id)
  {
    hide Tell, Spoken, SetConn;
    SpokenTell(g, a, b, id, b.sessions[id].conn.(phase := AwaitingUsername), [g.notice(Username)]);
    SpokenTell(g, a, b, id, c, []);
    var shown := SetConn(b, id, c);
    SpokenTell(g, a, shown, id, shown.sessions[id].conn.(phase := AwaitingUsername), [g.notice(Username)]);
  }

  lemma SpokenSignIn<W>(g: Game<W>, env: Env, a: Lane<W>, b: Lane<W>, id: nat, notify: bool, username: string)
    requires Spoken(g, a, b, id) && id in b.sessions
    ensures Spoken(g, a, CheckAuthentication(g, env, b, id, notify).0, id)
    ensures Spoken(g, a, RequestSignIn(g, env, b, id, username).0, id)
  {
    hide Tell, Spoken, Active, SetConn;
    var d := b.sessions[id].conn;
    SpokenTell(g, a, b, id, d, [g.notice(Pending)]);
    if id in env.pairings {
      SpokenTell(g, a, b, id, d.(credential := Some(env.pairings[id].credential), phase := Authenticated), [g.notice(Accepted)]);
    }
    if env.challenge.Some? {
      SpokenTell(g, a, b, id, d.(view := g.named(d, username), token := env.challenge.value, phase := AwaitingAuth),
                 [g.notice(Instructions)]);
    }
  }

  lemma SpokenIntent<W>(g: Game<W>, env: Env, a: Lane<W>, b: Lane<W>, id: nat, intent: Intent)
    requires Spoken(g, a, b, id) && id in b.sessions
    ensures Spoken(g, a, FollowIntent(g, env, b, id, intent).0, id)
  {
    hide Tell, SetConn, StartSignIn, CheckAuthentication, RequestSignIn, SelectCharacter, Spoken;
    var c := b.sessions[id].conn;
    match intent
    case Answer(lines, view) => SpokenTell(g, a, b, id, c.(view := view), lines);
    case Leave(lines) => SpokenTell(g, a, b, id, c, lines);
    case Restart(view) => SpokenDialog(g, a, b, id, c.(view := view));
    case Name(username) => SpokenSignIn(g, env, a, b, id, true, username);
    case Check => SpokenSignIn(g, env, a, b, id, true, "");
    case Choose(choice) => SpokenSelect(g, a, b, id, choice);
  }

  lemma SpokenPerform<W>(g: Game<W>, env: Env, a: Lane<W>, b: Lane<W>, req: Request)
    requires Spoken(g, a, b, req.id) && req.id in b.sessions
    ensures Spoken(g, a, Perform(g, env, b, req).0, req.id)
  {
    hide Tell, StartSignIn, CheckAuthentication, FollowIntent, Apply, Present, Spoken, Write, Active;
    var id := req.id;
    var s := b.sessions[id];
    SpokenSignIn(g, env, a, b, id, false, "");
    SpokenDialog(g, a, b, id, s.conn);
    match req.kind
    case Open =>
      SpokenTell(g, a, b, id, s.conn, [g.notice(Welcome)]);
      SpokenDialog(g, a, Tell(b, id, [g.notice(Welcome)]), id, s.conn);
    case Poll =>
    case Close =>
    case Input =>
      var (t, quit) := CheckSession(g, env.users, s);
      if quit {
        SpokenAside(g, a, b, b.(sessions := b.sessions[id := t]), id);
      } else if s.conn.phase.InGame? {
        if s.conn.character.Some? {
          PresentShown(g, a, b, id, req.line);
          SpokenApply(g, a, b, id, g.play(b.world, Present(b, id), id, req.line), Play(Present(b, id), id, req.line));
        }
      } else {
        SpokenIntent(g, env, a, b, id, g.intent(s.conn, req.line));
      }
  }

  // Until the departure, if there is one: whoever plays hears what the command has to say.
  lemma SpokenExecute<W>(g: Game<W>, env: Env, lane: Lane<W>, req: Request, wasPlaying: bool)
    requires req.id in lane.sessions && lane.acts == [] && Restored(lane.sessions, req.id)
    requires Execute(g, env, lane, req, wasPlaying).1 != Failed
    ensures Spoken(g, lane, Execute(g, env, lane, req, wasPlaying).0, req.id)
  {
    hide Perform, Observe, CaptureAll, Spoken;
    var id := req.id;
    SpokenStart(g, lane, id);
    SpokenObserve(g, lane, lane, id, true);
    var seen := if req.kind == Input && wasPlaying then Observe(g, lane, id, true) else lane;
    SpokenCapture(g, lane, seen, id);
    SpokenPerform(g, env, lane, CaptureAll(seen), req);
    var (after, outcome) := Perform(g, env, CaptureAll(seen), req);
    SpokenRetire(g, lane, after, id);
    SpokenAside(g, lane, if outcome == Quit then Retire(after, id) else after, Execute(g, env, lane, req, wasPlaying).0, id);
  }

  lemma SpokenRetire<W>(g: Game<W>, a: Lane<W>, b: Lane<W>, id: nat)
    requires Spoken(g, a, b, id) && id in b.sessions
    ensures Spoken(g, a, Retire(b, id), id)
  {
    hide Hears, Addressed, MailOf, ReplayActs, Shown;
  }

  // What session j has been told by the end of the turn.
  ghost function Words<W>(g: Game<W>, w: W, t: Turned<W>, character: Option<nat>, j: nat): seq<string> {
    Addressed(MailOf(g, w, t.lane.acts), j) + if t.departed && character.Some? then [g.notice(Left(character.value))] else []
  }

  lemma ReportsToItself<W>(g: Game<W>, a: Lane<W>, b: Lane<W>, id: nat, poll: bool)
    requires Tracks(g, a.world, b) && id in b.sessions
    ensures var c := LookAround(g, b, id, poll);
            && (forall j :: j in b.sessions && j != id ==> c.sessions[j] == b.sessions[j])
            && MailOf(g, a.world, c.acts) == MailOf(g, a.world, b.acts)
  {
    var s := b.sessions[id];
    if s.conn.room.Some? {
      MailNext(g, a.world, b.acts, Look(s.saved.scene, s.conn.room.value, poll));
      var m := MailOf(g, a.world, b.acts);
      assert m + [] == m;
    }
    hide MailOf, ReplayActs, WriteAll;
  }

  lemma TurnHeard<W>(g: Game<W>, env: Env, lane: Lane<W>, req: Request, wasClosed: bool, j: nat)
    requires req.id in lane.sessions && lane.acts == [] && Restored(lane.sessions, req.id) && j in lane.sessions && j != req.id
    ensures var t := Turn(g, env, lane, req, wasClosed);
            t.outcome != Some(Failed) ==>
              t.lane.sessions[j] == Hears(lane.sessions[j], j in lane.players, Words(g, lane.world, t, lane.sessions[req.id].conn.character, j))
  {
    hide Execute, LookAround, Observe, MailOf, Addressed, Restored, WriteAll;
    var id := req.id;
    var c := lane.sessions[id].conn;
    var wasPlaying := c.phase.InGame? && c.character.Some?;
    var go := IsFresh(lane.sessions[id], req.sequence);
    if Turn(g, env, lane, req, wasClosed).outcome != Some(Failed) {
      SpokenStart(g, lane, id);
      if go {
        SpokenExecute(g, env, lane, req, wasPlaying);
      }
      var ran := if go then Execute(g, env, lane, req, wasPlaying).0 else lane;
      var departs := !wasClosed && ran.sessions[id].saved.closed && wasPlaying;
      var told := if departs then Depart(g, ran, id, c.character.value) else ran;
      assert Tracks(g, lane.world, told) && MailOf(g, lane.world, told.acts) == MailOf(g, lane.world, ran.acts);
      ReportsToItself(g, lane, told, id, req.kind == Poll);
      var t := Turn(g, env, lane, req, wasClosed);
      assert t.lane.sessions[j] == told.sessions[j] && t.departed == departs;
      assert MailOf(g, lane.world, t.lane.acts) == MailOf(g, lane.world, ran.acts);
      var mail := Addressed(MailOf(g, lane.world, ran.acts), j);
      assert ran.sessions[j] == Hears(lane.sessions[j], j in lane.players, mail);
      PlayersKept(lane.players, ran.players, id, j);
      assert mail + [] == mail;
      if departs {
        HearsLast(lane.sessions[j], j in lane.players, mail, g.notice(Left(c.character.value)));
      }
    }
  }

  lemma HearsLast(s: Session, listed: bool, texts: seq<string>, text: string)
    ensures Hears(s, listed, texts + [text]) == if listed then Write(Hears(s, listed, texts), text) else s
  {
    WriteLast(s, texts, text);
  }

  // ---------------------------------------------------------------- what is committed

  // In the game, in a room, live and not revoked: a player others can be heard by.
  predicate Listed(users: map<nat, User>, rows: map<nat, Row>, now: int, j: nat) {
    && j in rows && !rows[j].closed && rows[j].lastSeen > now - 2 * 60 * 1_000_000
    && rows[j].saved.conn.phase == InGame && rows[j].saved.conn.character.Some? && rows[j].saved.conn.room.Some?
    && !Revoked(users, rows[j].saved)
  }

  lemma ListedPlayers<W>(g: Game<W>, env: Env, world: W, rows: map<nat, Row>, req: Request, j: nat)
    requires RowsOk(rows) && j != req.id && Loaded(rows, Sessions(rows, req, env.now), req)
    ensures j in Opening(g, env, world, Sessions(rows, req, env.now), req).players <==> Listed(env.users, rows, env.now, j)
  {
    hide Shape, Admit, Base, Revoked;
    var sessions := Sessions(rows, req, env.now);
    if j in sessions {
      assert RowOk(rows[j]);
      BystanderBegins(g, env, rows, sessions, req, world, j);
      CutIsRevoked(env.users, sessions, req, j);
    }
  }

  lemma CutIsRevoked(users: map<nat, User>, sessions: map<nat, Session>, req: Request, j: nat)
    requires j in sessions && j != req.id
    ensures j in Cut(users, sessions, req) <==> Revoked(users, sessions[j].saved)
  {
  }

  lemma {:induction false} LooksSayNothing<W>(g: Game<W>, w: W, acts: seq<Act>)
    requires forall k :: 0 <= k < |acts| ==> acts[k].Look?
    ensures MailOf(g, w, acts) == []
  {
    if acts != [] {
      LooksSayNothing(g, w, acts[..|acts| - 1]);
    }
  }

  lemma FailedSaysNothing<W>(g: Game<W>, w: W, run: Run)
    requires Faithful(run) && run.outcome == Failed
    ensures MailOf(g, w, run.acts) == []
  {
    var pre, mid, post :| Composed(run, pre, mid, post);
    LooksSayNothing(g, w, run.acts);
  }

  function ActsOf(run: Option<Run>): seq<Act> {
    if run.Some? then run.value.acts else []
  }

  // The texts a dispatch has for player j: the mail of what its command did, and the
  // departure of the requester, if it left the game.
  function TextsFor<W>(g: Game<W>, w: W, r: Result<W>, character: Option<nat>, j: nat): seq<string>
    requires r.Committed?
  {
    Addressed(MailOf(g, w, ActsOf(r.run)), j) +
    if r.departed && character.Some? then [g.notice(Left(character.value))] else []
  }

  lemma StoredHeard(r: Row, f: Session, u: Row, texts: seq<string>)
    requires RowOk(r) && f == WriteAll(LoadRow(r), texts)
    requires u == if f.dirty then SaveRow(f, r.lastSeen) else r
    ensures Heard(r.saved, u.saved, texts)
  {
    WriteAllHeard(LoadRow(r), texts);
    WriteAllQuiet(LoadRow(r), texts);
    hide WriteAll, Fits, Numbered;
    if Fits(r.saved, texts) {
    } else {
      var k :| 0 <= k < |texts| && FullAt(r.saved, f.saved, texts, k);
      assert FullAt(r.saved, u.saved, texts, k);
    }
  }

  lemma ServeHeard<W>(g: Game<W>, env: Env, rows: map<nat, Row>, req: Request, world: W, j: nat)
    requires RowsOk(rows) && j in rows && j != req.id && Loaded(rows, Sessions(rows, req, env.now), req)
    requires Closing(g, env, world, Sessions(rows, req, env.now), req).outcome != Some(Failed)
    ensures var sessions := Sessions(rows, req, env.now);
            var t := Closing(g, env, world, sessions, req);
            var stored := Store(rows, t.lane.sessions, req.id, env.now);
            if Listed(env.users, rows, env.now, j) then
              Heard(rows[j].saved, stored[j].saved, Words(g, world, t, OpeningSession(g, env, world, sessions, req).conn.character, j))
            else stored[j] == rows[j] || j in Cut(env.users, sessions, req)
  {
    var sessions := Sessions(rows, req, env.now);
    ListedPlayers(g, env, world, rows, req, j);
    assert RowOk(rows[j]);
    if j in sessions {
      BystanderBegins(g, env, rows, sessions, req, world, j);
      OpeningPlayers(g, env, world, rows, sessions, req, j);
      AllRestored(g, env, rows, sessions, req, world);
      OpeningActs(g, env, world, sessions, req);
      hide Opening, Turn, Shape, Listed, Words, Sessions, Cut, SaveRow, Restored;
      TurnHeard(g, env, Opening(g, env, world, sessions, req), req, sessions[req.id].saved.closed, j);
      var lane := Opening(g, env, world, sessions, req);
      if j in lane.players {
        assert lane.sessions[j] == LoadRow(rows[j]);
        var t := Closing(g, env, world, sessions, req);
        StoredHeard(rows[j], t.lane.sessions[j], Store(rows, t.lane.sessions, req.id, env.now)[j],
                    Words(g, world, t, OpeningSession(g, env, world, sessions, req).conn.character, j));
      }
    }
  }

  lemma OpeningActs<W>(g: Game<W>, env: Env, world: W, sessions: map<nat, Session>, req: Request)
    requires req.id in sessions
    ensures Opening(g, env, world, sessions, req).acts == [] && Opening(g, env, world, sessions, req).world == world
  {
    hide Base, Admit;
  }

  lemma AllRestored<W>(g: Game<W>, env: Env, rows: map<nat, Row>, sessions: map<nat, Session>, req: Request, world: W)
    requires Loaded(rows, sessions, req) && RowsOk(rows)
    ensures Restored(Opening(g, env, world, sessions, req).sessions, req.id)
  {
    hide Begin, Base, Shape, Cut;
    var lane := Opening(g, env, world, sessions, req);
    forall j | j in lane.sessions && j != req.id
      ensures lane.sessions[j].conn == lane.sessions[j].saved.conn
    {
      BystanderBegins(g, env, rows, sessions, req, world, j);
    }
  }

  // A requester that departs played the character its row was stored with.
  lemma DepartsAsStored<W>(g: Game<W>, env: Env, world: W, rows: map<nat, Row>, sessions: map<nat, Session>, req: Request)
    requires Loaded(rows, sessions, req)
    ensures var c := OpeningSession(g, env, world, sessions, req).conn;
            Closing(g, env, world, sessions, req).departed ==>
              c.character.Some? && c.character == Start(rows, req).saved.conn.character
  {
    OpeningConn(g, env, world, rows, sessions, req);
    hide Opening, Execute, Depart, LookAround, Active;
  }

  lemma ServeRecord<W>(g: Game<W>, env: Env, db: Database<W>, rows: map<nat, Row>, sessions: map<nat, Session>, req: Request)
    requires Loaded(rows, sessions, req) && Serve(g, env, db, rows, sessions, req).Committed?
    ensures var r := Serve(g, env, db, rows, sessions, req);
            var t := Closing(g, env, db.world, sessions, req);
            r.departed == t.departed && (r.run.Some? ==> r.run.value.acts == t.lane.acts)
  {
    hide Turn, Begin, Base, Store, Unique, Cut, Conflict, Acceptable;
  }

  lemma NothingHeard(c: Checkpoint)
    requires Size(c.output) <= OUTBOX_LIMIT
    ensures Heard(c, c, [])
  {
    assert c.output + Numbered([], c.nextOutput) == c.output;
  }

  lemma ToldHeard<W>(g: Game<W>, r: Row, character: nat)
    requires RowOk(r)
    ensures Heard(r.saved, Told(g, r, character).saved, [g.notice(Left(character))])
  {
    WriteOne(LoadRow(r), g.notice(Left(character)));
    WriteDirty(LoadRow(r), g.notice(Left(character)));
    StoredHeard(r, Write(LoadRow(r), g.notice(Left(character))), Told(g, r, character), [g.notice(Left(character))]);
  }

  lemma FailedHeard<W>(g: Game<W>, env: Env, db: Database<W>, rows: map<nat, Row>, req: Request, j: nat)
    requires RowsOk(rows) && j in rows && j != req.id && Loaded(rows, Sessions(rows, req, env.now), req)
    requires var r := Serve(g, env, db, rows, Sessions(rows, req, env.now), req);
             r.Committed? && r.run.Some? && r.run.value.outcome == Failed
    ensures var r := Serve(g, env, db, rows, Sessions(rows, req, env.now), req);
            j in r.db.rows &&
            if Listed(env.users, rows, env.now, j) then
              Heard(rows[j].saved, r.db.rows[j].saved, TextsFor(g, db.world, r, Start(rows, req).saved.conn.character, j))
            else r.db.rows[j] == rows[j]
  {
    var sessions := Sessions(rows, req, env.now);
    var r := Serve(g, env, db, rows, sessions, req);
    ServeUnfold(g, env, db, rows, sessions, req);
    ServeRecord(g, env, db, rows, sessions, req);
    DepartsAsStored(g, env, db.world, rows, sessions, req);
    ListedPlayers(g, env, db.world, rows, req, j);
    FailedCommandIsAtomic(g, env, rows, sessions, req, db.world, j);
    ServeActs(g, env, db, rows, sessions, req);
    FailedSaysNothing(g, db.world, r.run.value);
    hide Serve, Sessions, Opening, Turn, Overflows, Listed, Faithful, MailOf, Heard, Told, Shape;
    assert RowOk(rows[j]);
    var c := Start(rows, req).saved.conn.character;
    assert ActsOf(r.run) == r.run.value.acts && Addressed([], j) == [];
    RefusalHeard(g, rows[j], r.departed, c, j);
  }

  // Beside a failed command a player hears at most of a departure.
  lemma RefusalHeard<W>(g: Game<W>, r: Row, departed: bool, c: Option<nat>, j: nat)
    requires RowOk(r) && (departed ==> c.Some?)
    ensures Heard(r.saved, (if departed then Told(g, r, c.value) else r).saved,
                  Addressed([], j) + if departed && c.Some? then [g.notice(Left(c.value))] else [])
  {
    hide Heard, Told, Shape;
    RowFits(r);
    var texts := Addressed([], j) + if departed && c.Some? then [g.notice(Left(c.value))] else [];
    if departed {
      ToldHeard(g, r, c.value);
      assert texts == [g.notice(Left(c.value))];
    } else {
      NothingHeard(r.saved);
      assert texts == [];
    }
  }

  lemma RowFits(r: Row)
    requires RowOk(r)
    ensures Size(r.saved.output) <= OUTBOX_LIMIT
  {
  }

  // Everyone hears what was said and nothing else: after any committed dispatch the outbox
  // of every other player holds in addition exactly the mail the game addressed to it, in
  // order and under the next IDs, and the departure of the requester if it left; if that
  // does not fit, it holds what fits before the first text that does not, and is closed.
  // Sessions that do not play gain nothing.
  lemma EveryoneHears<W>(g: Game<W>, env: Env, db: Database<W>, req: Request, j: nat)
    requires RowsOk(db.rows) && j in Sweep(db.rows, env.now) && j != req.id
    ensures var r := Dispatch(g, env, db, req);
            var rows := Sweep(db.rows, env.now);
            r.Committed? ==>
              j in r.db.rows &&
              if Listed(env.users, rows, env.now, j) then
                Heard(rows[j].saved, r.db.rows[j].saved, TextsFor(g, db.world, r, Start(rows, req).saved.conn.character, j))
              else r.db.rows[j] == rows[j] || j in r.cut
  {
    hide Dispatch, Serve, Sweep, Listed, Heard, TextsFor, Shape;
    DispatchServes(g, env, db, req);
    var rows := Sweep(db.rows, env.now);
    var sessions := Sessions(rows, req, env.now);
    SweepOk(db.rows, env.now);
    var r := Dispatch(g, env, db, req);
    if r.Committed? {
      if r.run.Some? && r.run.value.outcome == Failed {
        FailedHeard(g, env, db, rows, req, j);
      } else {
        UnfailedHeard(g, env, db, rows, req, j);
      }
    }
  }

  lemma UnfailedHeard<W>(g: Game<W>, env: Env, db: Database<W>, rows: map<nat, Row>, req: Request, j: nat)
    requires RowsOk(rows) && j in rows && j != req.id && Loaded(rows, Sessions(rows, req, env.now), req)
    requires var r := Serve(g, env, db, rows, Sessions(rows, req, env.now), req);
             r.Committed? && !(r.run.Some? && r.run.value.outcome == Failed)
    ensures var r := Serve(g, env, db, rows, Sessions(rows, req, env.now), req);
            j in r.db.rows &&
            if Listed(env.users, rows, env.now, j) then
              Heard(rows[j].saved, r.db.rows[j].saved, TextsFor(g, db.world, r, Start(rows, req).saved.conn.character, j))
            else r.db.rows[j] == rows[j] || j in r.cut
  {
    var sessions := Sessions(rows, req, env.now);
    ServeUnfold(g, env, db, rows, sessions, req);
    ServeRecord(g, env, db, rows, sessions, req);
    DepartsAsStored(g, env, db.world, rows, sessions, req);
    ServeHeard(g, env, rows, req, db.world, j);
    ClosingTurned(g, env, rows, sessions, req, db.world);
    OpeningActs(g, env, db.world, sessions, req);
    hide Serve, Sessions, Opening, Turn, Listed, MailOf, Heard, Cut, Turned1, Addressed;
  }

  lemma TurnShows<W>(g: Game<W>, env: Env, lane: Lane<W>, req: Request, wasClosed: bool)
    requires req.id in lane.sessions && lane.acts == [] && Restored(lane.sessions, req.id)
    ensures var t := Turn(g, env, lane, req, wasClosed);
            t.outcome != Some(Failed) ==> forall k :: 0 <= k < |t.lane.acts| ==> Shown(lane, req.id, t.lane.acts[k])
  {
    hide Execute, Restored, MailOf, Addressed, Hears, WriteAll, Tracks;
    var id := req.id;
    var c := lane.sessions[id].conn;
    var wasPlaying := c.phase.InGame? && c.character.Some?;
    if IsFresh(lane.sessions[id], req.sequence) && Execute(g, env, lane, req, wasPlaying).1 != Failed {
      SpokenExecute(g, env, lane, req, wasPlaying);
    }
  }

  // The game is shown who is there: whenever a dispatch calls it for a command, it is told
  // of the requester and of exactly the other players, each with the stored connection.
  lemma GameSeesPlayers<W>(g: Game<W>, env: Env, db: Database<W>, req: Request, k: nat, j: nat)
    requires RowsOk(db.rows) && j != req.id
    ensures var r := Dispatch(g, env, db, req);
            var rows := Sweep(db.rows, env.now);
            r.Committed? && k < |ActsOf(r.run)| && !r.run.value.acts[k].Look? ==>
              var act := r.run.value.acts[k];
              && act.id == req.id && req.id in act.present
              && (j in act.present <==> Listed(env.users, rows, env.now, j))
              && (j in act.present ==> act.present[j] == rows[j].saved.conn)
  {
    hide Dispatch, Serve, Sweep, Listed, Shape;
    DispatchServes(g, env, db, req);
    var rows := Sweep(db.rows, env.now);
    SweepOk(db.rows, env.now);
    var r := Dispatch(g, env, db, req);
    if r.Committed? && k < |ActsOf(r.run)| && !r.run.value.acts[k].Look? {
      ServeShows(g, env, db, rows, req, k, j);
    }
  }

  lemma FailedLooks(run: Run)
    requires Faithful(run) && run.outcome == Failed
    ensures forall k :: 0 <= k < |run.acts| ==> run.acts[k].Look?
  {
    var pre, mid, post :| Composed(run, pre, mid, post);
  }

  lemma ServeShows<W>(g: Game<W>, env: Env, db: Database<W>, rows: map<nat, Row>, req: Request, k: nat, j: nat)
    requires RowsOk(rows) && j != req.id && Loaded(rows, Sessions(rows, req, env.now), req)
    requires var r := Serve(g, env, db, rows, Sessions(rows, req, env.now), req);
             r.Committed? && k < |ActsOf(r.run)| && !r.run.value.acts[k].Look?
    ensures var act := Serve(g, env, db, rows, Sessions(rows, req, env.now), req).run.value.acts[k];
            && act.id == req.id && req.id in act.present
            && (j in act.present <==> Listed(env.users, rows, env.now, j))
            && (j in act.present ==> act.present[j] == rows[j].saved.conn)
  {
    var sessions := Sessions(rows, req, env.now);
    var r := Serve(g, env, db, rows, sessions, req);
    ServeUnfold(g, env, db, rows, sessions, req);
    ServeRecord(g, env, db, rows, sessions, req);
    ServeActs(g, env, db, rows, sessions, req);
    ListedPlayers(g, env, db.world, rows, req, j);
    OpeningActs(g, env, db.world, sessions, req);
    AllRestored(g, env, rows, sessions, req, db.world);
    var lane := Opening(g, env, db.world, sessions, req);
    if r.run.value.outcome == Failed {
      FailedLooks(r.run.value);
    }
    OpeningPlayers(g, env, db.world, rows, sessions, req, j);
    if j in sessions {
      BystanderBegins(g, env, rows, sessions, req, db.world, j);
    }
    hide Serve, Sessions, Opening, Turn, Listed, Faithful, Restored, Shape, Cut;
    TurnShows(g, env, lane, req, sessions[req.id].saved.closed);
    assert Shown(lane, req.id, r.run.value.acts[k]);
  }
}
