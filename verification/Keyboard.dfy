// From the keyboard to the world: what the edge sends is what was typed, line by line,
// and what a session has run is a first part of that.
module Keyboard {
  import opened Wrappers
  import opened Terminalwire
  import opened CoreSession
  import opened CoreDispatch
  import opened RowFacts
  import opened Edge
  import opened Protocol
  import opened Honest
  import opened Guarantees
  import opened Acts
  import opened WorldReplay
  import opened Ownership
  import opened OwnerIndex

  // The answer keeps the terminal with its session and asks for a next command.
  predicate GoesOn(reply: Response, broken: Option<nat>) {
    !reply.reset && !reply.closed && (broken.None? || broken.value > |reply.output|)
  }

  // After such an answer the terminal sends exactly what was typed, a poll when the wait
  // ran out, and a close when it idled too long or stops.
  lemma NextRequest(t: Terminal, reply: Response, next: Next, id: nat, broken: Option<nat>)
    requires t.req.id in t.written && t.req.id in t.script && GoesOn(reply, broken)
    ensures var u := Proceed(t, reply, next, id, broken);
            && u.req.edge == t.req.edge && u.req.id == t.req.id && u.req.sequence == t.req.sequence + 1
            && (match next
                case Line(text) => u.req.kind == Input && u.req.line == text && !u.done
                case Tick => u.req.kind == Poll && u.req.line == "" && !u.done
                case Idle => u.req.kind == Close && u.req.line == "" && !u.done
                case Stop => u.req.kind == Close && u.req.line == "" && u.done)
            && u.script == t.script[t.req.id := t.script[t.req.id] + [Command(u.req.kind, u.req.line)]]
  {
    ReceiveKeeps(t, reply.output);
    hide Receive;
  }

  // Any other answer ends the session of the terminal, or dials again.
  lemma LastRequest(t: Terminal, reply: Response, next: Next, id: nat, broken: Option<nat>)
    requires t.req.id in t.written && t.req.id in t.script && !GoesOn(reply, broken)
    ensures var u := Proceed(t, reply, next, id, broken);
            if reply.reset && broken.None? then
              && u.req == Request(t.req.edge, id, 1, 0, Open, "") && u.done == t.done
              && u.script == t.script[id := [Command(Open, "")]]
            else
              && u.done && u.req == t.req.(kind := Close, line := "", ack := u.req.ack) && u.script == t.script
  {
    if !reply.reset {
      var n := if broken.Some? && broken.value <= |reply.output| then broken.value else |reply.output|;
      assert reply.output[..|reply.output|] == reply.output;
      ReceiveKeeps(t, reply.output[..n]);
    }
    hide Receive;
  }

  // ---------------------------------------------------------------- whole runs

  function Lines(commands: seq<Command>): seq<string> {
    if commands == [] then []
    else
      var last := commands[|commands| - 1];
      Lines(commands[..|commands| - 1]) + if last.kind == Input then [last.line] else []
  }

  // The lines typed at the terminal while it served session j, as the run's own choices.
  ghost function Entered<W>(g: Game<W>, s: System<W>, ls: seq<Label>, j: nat): seq<string>
    decreases |ls|
  {
    if ls == [] || s.term.req.id !in s.term.written || s.term.req.id !in s.term.script then []
    else
      (if ls[0].Accept? && s.term.req.id == j && GoesOn(ls[0].reply, ls[0].broken) && ls[0].next.Line?
       then [ls[0].next.text] else [])
      + Entered(g, After(g, s, ls[0]), ls[1..], j)
  }

  function Script(t: Terminal, j: nat): seq<Command> {
    if j in t.script then t.script[j] else []
  }

  lemma LinesNext(commands: seq<Command>, c: Command)
    ensures Lines(commands + [c]) == Lines(commands) + if c.kind == Input then [c.line] else []
  {
    assert (commands + [c])[..|commands|] == commands;
  }

  lemma StepEnters<W>(g: Game<W>, s: System<W>, l: Label, j: nat)
    requires s.term.req.id in s.term.written && s.term.req.id in s.term.script && Enabled(s, l)
    ensures Lines(Script(After(g, s, l).term, j)) ==
            Lines(Script(s.term, j)) +
              if l.Accept? && s.term.req.id == j && GoesOn(l.reply, l.broken) && l.next.Line? then [l.next.text] else []
  {
    hide Dispatch, Proceed, Extend, Lines;
    if l.Accept? {
      if GoesOn(l.reply, l.broken) {
        NextRequest(s.term, l.reply, l.next, l.id, l.broken);
        var u := Proceed(s.term, l.reply, l.next, l.id, l.broken);
        LinesNext(s.term.script[s.term.req.id], Command(u.req.kind, u.req.line));
      } else {
        LastRequest(s.term, l.reply, l.next, l.id, l.broken);
        NothingTyped();
      }
    }
  }

  lemma NothingTyped()
    ensures Lines([Command(Open, "")]) == Lines([])
  {
    assert [Command(Open, "")][..0] == [];
  }

  lemma {:induction false} RunEnters<W>(g: Game<W>, s: System<W>, ls: seq<Label>, t: System<W>, j: nat)
    requires Reaches(g, s, ls, t)
    ensures Lines(Script(t.term, j)) == Lines(Script(s.term, j)) + Entered(g, s, ls, j)
    decreases |ls|
  {
    hide Enabled, After, Lines, Script, GoesOn;
    if ls != [] {
      StepEnters(g, s, ls[0], j);
      RunEnters(g, After(g, s, ls[0]), ls[1..], t, j);
    }
  }

  // ---------------------------------------------------------------- from keys to the log

  // The lines the runs of a session asked for.
  function Asked(runs: seq<Run>): seq<string> {
    if runs == [] then []
    else
      var last := runs[|runs| - 1];
      Asked(runs[..|runs| - 1]) + if last.kind == Input then [last.line] else []
  }

  lemma {:induction false} AskedPrefix(runs: seq<Run>, script: seq<Command>)
    requires Matching(runs, script)
    ensures Asked(runs) == Lines(script[..|runs|])
  {
    if runs != [] {
      var n := |runs| - 1;
      AskedPrefix(runs[..n], script);
      assert script[..n + 1][..n] == script[..n];
    }
  }

  lemma {:induction false} LinesPrefix(script: seq<Command>, n: nat)
    requires n <= |script|
    ensures Lines(script[..n]) <= Lines(script)
    decreases |script|
  {
    if n < |script| {
      var m := |script| - 1;
      LinesPrefix(script[..m], n);
      assert script[..m][..n] == script[..n];
    } else {
      assert script[..n] == script;
    }
  }

  // End to end: over any run the lines a session of the terminal has executed are the
  // first lines typed at it, in order, unchanged, none twice and none left out in between.
  lemma ExecutedAsTyped<W>(g: Game<W>, world: W, edge: nat, id: nat, ls: seq<Label>, t: System<W>, j: nat)
    requires Reaches(g, Initial(world, edge, id), ls, t)
    ensures j in t.term.script ==>
              var typed := Entered(g, Initial(world, edge, id), ls, j);
              && Lines(t.term.script[j]) == typed
              && Asked(Runs(t.log, j)) <= typed
  {
    RunEnters(g, Initial(world, edge, id), ls, t, j);
    ExactlyOnce(g, world, edge, id, ls, t);
    NothingTyped();
    hide Reaches, Entered;
    if j in t.term.script {
      var runs, script := Runs(t.log, j), t.term.script[j];
      AskedPrefix(runs, script);
      LinesPrefix(script, |runs|);
    }
  }

  // Nobody gets stuck: from any reachable state, if the request of the terminal is sent and
  // delivered, nothing fails and the index does not refuse it, the terminal may accept the
  // answer, and goes on from there with the next sequence unless it is told to stop.
  lemma NextLineGoes<W(!new)>(g: Game<W>, world: W, edge: nat, id: nat, ls: seq<Label>, t: System<W>, users: map<nat, User>, env: Env,
                              next: Next, newId: nat)
    requires Owned(g) && Reaches(g, Initial(world, edge, id), ls, t) && Advancing(users, ls) && !t.term.done
    requires Timely(t, t.term.req, env) && Advances(UsersAfter(users, ls), env.users) && !env.fault
    requires t.term.req.id in t.term.written && t.term.req.id in t.term.script && !Blocked(g, env, t.db, t.term.req)
    requires next.Line? ==> |next.text| <= LINE_LIMIT
    ensures Enabled(t, Transmit) && Enabled(After(g, t, Transmit), Deliver(t.term.req, env))
    ensures var p, s := Dispatch(g, env, t.db, t.term.req), After(g, After(g, t, Transmit), Deliver(t.term.req, env));
            && !p.Aborted? && p.reply in s.replies && s.term == t.term
            && (newId !in s.term.script && newId !in s.db.rows && newId !in s.purged ==>
                  && Enabled(s, Accept(p.reply, next, newId, None))
                  && (!p.reply.closed && !p.reply.reset ==>
                        After(g, s, Accept(p.reply, next, newId, None)).term.req.sequence == t.term.req.sequence + 1))
  {
    hide Dispatch, Reaches, Owned, Advancing, Advances, Blocked;
    HonestAnswered(g, world, edge, id, ls, t, users, env);
    hide Timely, After, Delivered, Proceed;
    Sends(g, t, env);
    var s := After(g, After(g, t, Transmit), Deliver(t.term.req, env));
    if newId !in s.term.script && newId !in s.db.rows && newId !in s.purged {
      Accepts(g, s, Dispatch(g, env, t.db, t.term.req).reply, next, newId);
    }
  }

  lemma Sends<W>(g: Game<W>, t: System<W>, env: Env)
    requires Timely(t, t.term.req, env) && !t.term.done && t.term.req.id in t.term.written && t.term.req.id in t.term.script
    ensures Enabled(t, Transmit) && Enabled(After(g, t, Transmit), Deliver(t.term.req, env))
    ensures var p, s := Dispatch(g, env, t.db, t.term.req), After(g, After(g, t, Transmit), Deliver(t.term.req, env));
            !p.Aborted? ==> p.reply in s.replies && s.term == t.term
  {
    hide Dispatch, Extend, Sweep;
  }

  lemma Accepts<W>(g: Game<W>, s: System<W>, p: Response, next: Next, newId: nat)
    requires s.term.req.id in s.term.written && s.term.req.id in s.term.script && !s.term.done
    requires p in s.replies && p.sequence == s.term.req.sequence && (next.Line? ==> |next.text| <= LINE_LIMIT)
    requires newId !in s.term.script && newId !in s.db.rows && newId !in s.purged
    ensures Enabled(s, Accept(p, next, newId, None))
    ensures !p.closed && !p.reset ==> After(g, s, Accept(p, next, newId, None)).term.req.sequence == s.term.req.sequence + 1
  {
    if !p.closed && !p.reset {
      NextRequest(s.term, p, next, newId, None);
    }
    hide Proceed;
  }
}
