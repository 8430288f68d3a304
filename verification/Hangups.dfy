// What a close does to a session, over whole runs: it beats the pending command of its
// number whenever the session has a row, and is forgotten when it has none.
module Hangups {
  import opened Wrappers
  import opened Terminalwire
  import opened CoreSession
  import opened CoreDispatch
  import opened DispatchFacts
  import opened RowFacts
  import opened Edge
  import opened Protocol
  import opened Honest
  import opened Guarantees

  lemma ClosedByRequest(req: Request, now: int, r: Row, u: Row, run: Option<Run>, cut: bool)
    requires RequesterRow(req, now, r, u, run, cut) && req.kind == Close
    ensures u.closed && run.None?
  {
  }

  // With a row in the table a close is committed or aborted, never merely answered.
  lemma CloseCommits<W>(g: Game<W>, env: Env, db: Database<W>, close: Request)
    requires close.kind == Close && !Dispatch(g, env, db, close).Aborted?
    ensures Dispatch(g, env, db, close).Committed? <==> close.id in Sweep(db.rows, env.now)
  {
    hide Serve;
    if close.id in Sweep(db.rows, env.now) {
      ServeNeverAnswers(g, env, db, Sweep(db.rows, env.now), Load(Sweep(db.rows, env.now), close.id, env.now), close);
    }
  }

  // A close that is not aborted ends the session iff its row is there, or it was over
  // already; it executes nothing.
  lemma CloseEnds<W>(g: Game<W>, s: System<W>, close: Request, env: Env)
    requires Inv(s) && Enabled(s, Deliver(close, env)) && close.kind == Close
    requires !Dispatch(g, env, s.db, close).Aborted?
    ensures var t := Delivered(g, s, close, env);
            && t.log == s.log
            && (Over(t, close.id) <==> close.id in Sweep(s.db.rows, env.now) || Over(s, close.id))
  {
    hide Dispatch, SessionsOk, HonestOk, Extend, Sweep, RequesterRow;
    CloseCommits(g, env, s.db, close);
    if Dispatch(g, env, s.db, close).Committed? {
      SweptRows(s, env.now);
      DispatchStep(g, env, s.db, close);
      var r := Dispatch(g, env, s.db, close);
      ClosedByRequest(close, env.now, Start(Sweep(s.db.rows, env.now), close), r.db.rows[close.id], r.run, close.id in r.cut);
    }
  }

  lemma SameRuns(a: seq<Run>, b: seq<Run>, j: nat)
    requires Runs(a, j) == Runs(b, j)
    ensures forall k :: 0 <= k < |a| && a[k].id == j ==> a[k] in b
  {
    RunsOfOthers(a, j);
    RunsOfOthers(b, j);
  }

  // A close beats the pending command of its number, and every other: once it commits, in
  // no later state has the session run anything that was not run before the close.
  lemma CloseBeatsInput<W>(g: Game<W>, world: W, edge: nat, id: nat, before: seq<Label>, s: System<W>, close: Request, env: Env,
                           after: seq<Label>, u: System<W>)
    requires Reaches(g, Initial(world, edge, id), before, s)
    requires Enabled(s, Deliver(close, env)) && close.kind == Close && close.id in Sweep(s.db.rows, env.now)
    requires !Dispatch(g, env, s.db, close).Aborted?
    requires Reaches(g, Delivered(g, s, close, env), after, u)
    ensures Over(u, close.id)
    ensures forall k :: 0 <= k < |u.log| && u.log[k].id == close.id ==> u.log[k] in s.log
  {
    InitialInv(world, edge, id);
    RunInv(g, Initial(world, edge, id), before, s);
    hide Reaches, Dispatch, Inv, Enabled, Over, Delivered, Sweep, Runs;
    CloseEnds(g, s, close, env);
    TermThere(s);
    StepInv(g, s, Deliver(close, env));
    ClosedIsFinal(g, Delivered(g, s, close, env), after, u, close.id);
    SameRuns(u.log, s.log, close.id);
  }

  lemma TermThere<W>(s: System<W>)
    requires Inv(s)
    ensures s.term.req.id in s.term.written && s.term.req.id in s.term.script
  {
    hide SessionsOk;
    TermCurrent(s.term);
  }

  // ---------------------------------------------------------------- overtaken

  // A first `open` always runs.
  lemma OpenRuns<W>(g: Game<W>, env: Env, db: Database<W>, rows: map<nat, Row>, sessions: map<nat, Session>, open: Request)
    requires Loaded(rows, sessions, open) && RowsOk(rows) && open.id !in rows && open.kind == Open && open.sequence == 1
    requires Serve(g, env, db, rows, sessions, open).Committed?
    ensures var r := Serve(g, env, db, rows, sessions, open);
            r.run.Some? && r.run.value.id == open.id && r.run.value.kind == Open && r.run.value.sequence == 1
  {
    ClosingTurned(g, env, rows, sessions, open, db.world);
    hide Turn, Turned1, Cut, Unique, Store;
  }

  lemma FirstOpen<W>(g: Game<W>, env: Env, db: Database<W>, open: Request)
    requires db.rows == map[] && !env.fault && open.kind == Open && open.sequence == 1 && open.ack == 0 && |open.line| <= LINE_LIMIT
    ensures var r := Dispatch(g, env, db, open);
            r.Committed? && r.run.Some? && r.run.value.id == open.id && r.run.value.kind == Open && r.run.value.sequence == 1
  {
    var sessions := Sessions(map[], open, env.now);
    assert Sweep(db.rows, env.now) == map[];
    assert Load(map[], open.id, env.now) == map[];
    assert sessions == map[open.id := NewSession(open.edge)];
    hide Turn, Begin, Base, Cut;
    DispatchServes(g, env, db, open);
    var t := Closing(g, env, db.world, sessions, open);
    assert Unique(Store(map[], t.lane.sessions, open.id, env.now));
    if Serve(g, env, db, map[], sessions, open).Committed? {
      OpenRuns(g, env, db, map[], sessions, open);
    }
  }

  // The edge dials, gives up and hangs up; the close arrives first.
  function Overtaking(edge: nat, id: nat, env: Env, later: Env): seq<Label> {
    [Transmit, Drop, Transmit,
     Deliver(Request(edge, id, 1, 0, Close, ""), env),
     Deliver(Request(edge, id, 1, 0, Open, ""), later)]
  }

  lemma ReachesStep<W>(g: Game<W>, s: System<W>, l: Label, ls: seq<Label>, t: System<W>)
    requires s.term.req.id in s.term.written && s.term.req.id in s.term.script && Enabled(s, l)
    requires Reaches(g, After(g, s, l), ls, t)
    ensures Reaches(g, s, [l] + ls, t)
  {
    hide Enabled, After;
    assert ([l] + ls)[1..] == ls;
  }

  // The edge has hung up before its `open` arrived: both requests are on the network.
  function HungUp<W>(world: W, edge: nat, id: nat): System<W> {
    var s := Initial(world, edge, id);
    s.(term := Finish(s.term), net := {s.term.req, Finish(s.term).req})
  }

  lemma HangsUp<W>(g: Game<W>, world: W, edge: nat, id: nat, ls: seq<Label>, t: System<W>)
    requires Reaches(g, HungUp(world, edge, id), ls, t)
    ensures Reaches(g, Initial(world, edge, id), [Transmit, Drop, Transmit] + ls, t)
  {
    var s0 := Initial(world, edge, id);
    var s1 := s0.(net := {s0.term.req});
    var s2 := s1.(term := Finish(s1.term));
    assert After(g, s0, Transmit) == s1;
    assert After(g, s1, Drop) == s2;
    assert After(g, s2, Transmit) == HungUp(world, edge, id);
    ReachesStep(g, s2, Transmit, ls, t);
    ReachesStep(g, s1, Drop, [Transmit] + ls, t);
    ReachesStep(g, s0, Transmit, [Drop] + ([Transmit] + ls), t);
    assert [Transmit, Drop, Transmit] + ls == [Transmit] + ([Drop] + ([Transmit] + ls));
  }

  lemma Forgotten<W>(g: Game<W>, world: W, edge: nat, id: nat, env: Env)
    requires !env.fault && 0 <= env.now
    ensures var s := HungUp(world, edge, id);
            var close := Deliver(Request(edge, id, 1, 0, Close, ""), env);
            Enabled(s, close) && After(g, s, close) == s.(clock := env.now)
  {
    hide Serve;
  }

  lemma OpensLate<W>(g: Game<W>, world: W, edge: nat, id: nat, now: int, later: Env)
    requires !later.fault && now <= later.now
    ensures var s := HungUp(world, edge, id).(clock := now);
            var open := Deliver(Request(edge, id, 1, 0, Open, ""), later);
            var t := After(g, s, open);
            Enabled(s, open) && t.term.done && |t.log| == 1 && t.log[0].id == id && t.log[0].kind == Open
  {
    var s := HungUp(world, edge, id).(clock := now);
    FirstOpen(g, later, s.db, Request(edge, id, 1, 0, Open, ""));
    hide Dispatch, Extend, Sweep;
  }

  // A close without a row leaves no mark: whatever the game, there is a run of the
  // protocol in which the terminal has hung up, its close is answered as closed, and the
  // `open` it overtook is executed all the same.
  lemma CloseOvertaken<W>(g: Game<W>, world: W, edge: nat, id: nat, env: Env, later: Env)
    requires !env.fault && !later.fault && 0 <= env.now <= later.now
    ensures exists t: System<W> ::
              && Reaches(g, Initial(world, edge, id), Overtaking(edge, id, env, later), t)
              && t.term.done && |t.log| == 1 && t.log[0].id == id && t.log[0].kind == Open
  {
    hide *;
    var close := Deliver(Request(edge, id, 1, 0, Close, ""), env);
    var open := Deliver(Request(edge, id, 1, 0, Open, ""), later);
    var s := HungUp(world, edge, id);
    HungUpTerm(world, edge, id);
    Forgotten(g, world, edge, id, env);
    OpensLate(g, world, edge, id, env.now, later);
    var t := After(g, s.(clock := env.now), open);
    ReachesNone(g, t);
    assert [open] + [] == [open] && [close] + [open] == [close, open];
    ReachesStep(g, s.(clock := env.now), open, [], t);
    ReachesStep(g, s, close, [open], t);
    HangsUp(g, world, edge, id, [close, open], t);
    OvertakingIs(edge, id, env, later);
  }

  lemma HungUpTerm<W>(world: W, edge: nat, id: nat)
    ensures var t := HungUp(world, edge, id).term; t.req.id in t.written && t.req.id in t.script
  {
  }

  lemma ReachesNone<W>(g: Game<W>, t: System<W>)
    ensures Reaches(g, t, [], t)
  {
  }

  lemma OvertakingIs(edge: nat, id: nat, env: Env, later: Env)
    ensures Overtaking(edge, id, env, later) ==
            [Transmit, Drop, Transmit]
            + [Deliver(Request(edge, id, 1, 0, Close, ""), env), Deliver(Request(edge, id, 1, 0, Open, ""), later)]
  {
  }
}
