// Revoked credentials over whole runs: no session runs a command on a credential that
// no longer holds, and when its row is closed by the dispatches of others.
module Revocation {
  import opened Wrappers
  import opened Terminalwire
  import opened CoreSession
  import opened CoreDispatch
  import opened DispatchFacts
  import opened RowFacts
  import opened Failures
  import opened Edge
  import opened Protocol
  import opened Honest
  import opened Guarantees
  import opened Ownership

  // Lapsed for good: a credential below or at the user's version never holds again.
  predicate Withdrawn(users: map<nat, User>, c: Conn) {
    Lapsed(users, c) &&
    (c.credential.Some? ==>
       c.credential.value.user in users && c.credential.value.version <= users[c.credential.value.user].version)
  }

  lemma WithdrawnStays(users: map<nat, User>, later: map<nat, User>, c: Conn)
    requires Withdrawn(users, c) && Advances(users, later)
    ensures Withdrawn(later, c)
  {
  }

  // ---------------------------------------------------------------- its own requests

  // A committed dispatch for a session whose credential lapsed runs no command and leaves
  // the session closed; output older than the revocation is returned exactly when the
  // recheck is skipped and such output is still pending.
  lemma RevokedDispatch<W>(g: Game<W>, env: Env, db: Database<W>, req: Request)
    requires RowsOk(db.rows) && req.id in Sweep(db.rows, env.now) && Lapsed(env.users, db.rows[req.id].saved.conn)
    ensures var r := Dispatch(g, env, db, req);
            var start := Sweep(db.rows, env.now)[req.id];
            r.Committed? ==>
              && r.run.None? && r.reply.closed && req.id in r.db.rows && r.db.rows[req.id].closed
              && ((exists o :: o in r.reply.output && o.id <= start.saved.nextOutput) <==>
                  Unchecked(start, req) && Trim(start.saved.output, req.ack) != [])
  {
    hide Serve, Dispatch, Sessions;
    DispatchServes(g, env, db, req);
    SweepOk(db.rows, env.now);
    RevokedSession(g, env, db, Sweep(db.rows, env.now), Sessions(Sweep(db.rows, env.now), req, env.now), req);
  }

  // ---------------------------------------------------------------- whole runs

  // The session is over, or its open row still holds a withdrawn credential.
  ghost predicate Barred<W>(s: System<W>, j: nat, users: map<nat, User>) {
    Over(s, j) || (j in s.db.rows && Withdrawn(users, s.db.rows[j].saved.conn))
  }

  lemma BystanderBarred(r: Row, u: Row, cut: bool, users: map<nat, User>)
    requires (if cut then CutRow(r, u) else KeptRow(r, u)) && Withdrawn(users, r.saved.conn)
    ensures u.closed || Withdrawn(users, u.saved.conn)
  {
  }

  lemma BarredCommit<W>(g: Game<W>, s: System<W>, req: Request, env: Env, j: nat)
    requires SessionsOk(s) && Dispatch(g, env, s.db, req).Committed?
    requires req.id !in Sweep(s.db.rows, env.now) ==> req.id !in s.purged && !Expired(s.db.rows, req.id, env.now)
    requires j in s.db.rows && Withdrawn(env.users, s.db.rows[j].saved.conn)
    ensures var t := Commit(s, req, env.now, Dispatch(g, env, s.db, req));
            Barred(t, j, env.users) && Runs(t.log, j) == Runs(s.log, j)
  {
    hide Dispatch, SessionOk, RequesterRow, KeptRow, CutRow, Unique, Extend, Runs, Shape, Start, Withdrawn, Trim;
    var rows := Sweep(s.db.rows, env.now);
    var r := Dispatch(g, env, s.db, req);
    SweptRows(s, env.now);
    DispatchStep(g, env, s.db, req);
    RunOfRequester(req, env.now, Start(rows, req), r.db.rows[req.id], r.run, req.id in r.cut);
    RunsGrow(s, req, env.now, r, j);
    WithdrawnLapsed(env.users, s.db.rows[j].saved.conn);
    if j == req.id {
      RevokedDispatch(g, env, s.db, req);
    } else if j in rows {
      BystanderBarred(rows[j], r.db.rows[j], j in r.cut, env.users);
    }
  }

  lemma WithdrawnLapsed(users: map<nat, User>, c: Conn)
    ensures Withdrawn(users, c) ==> Lapsed(users, c)
  {
  }

  lemma BarredStep<W>(g: Game<W>, s: System<W>, l: Label, j: nat, users: map<nat, User>)
    requires Inv(s) && Enabled(s, l) && s.term.req.id in s.term.written && s.term.req.id in s.term.script
    requires Barred(s, j, users) && (l.Deliver? ==> Advances(users, l.env.users))
    ensures var t := After(g, s, l);
            Barred(t, j, if l.Deliver? then l.env.users else users) && Runs(t.log, j) == Runs(s.log, j)
  {
    hide Dispatch, SessionsOk, HonestOk, Proceed, Runs, Extend, Sweep, Withdrawn, Advances;
    if Over(s, j) {
      OverStep(g, s, l, j);
    } else if l.Deliver? {
      WithdrawnStays(users, l.env.users, s.db.rows[j].saved.conn);
      if Dispatch(g, l.env, s.db, l.req).Committed? {
        CommitsCurrent(g, s, l.req, l.env);
        BarredCommit(g, s, l.req, l.env, j);
      }
    }
  }

  lemma {:induction false} RunBarred<W>(g: Game<W>, s: System<W>, ls: seq<Label>, t: System<W>, j: nat, users: map<nat, User>)
    requires Inv(s) && Reaches(g, s, ls, t) && Advancing(users, ls) && Barred(s, j, users)
    ensures Barred(t, j, UsersAfter(users, ls)) && Runs(t.log, j) == Runs(s.log, j)
    decreases |ls|
  {
    hide Inv, Enabled, After, Barred, Runs, Advances;
    if ls != [] {
      StepInv(g, s, ls[0]);
      BarredStep(g, s, ls[0], j, users);
      RunBarred(g, After(g, s, ls[0]), ls[1..], t, j, if ls[0].Deliver? then ls[0].env.users else users);
    }
  }

  // In a reachable state a lapsed credential of an open row is lapsed for good.
  lemma LapsedIsBarred<W>(g: Game<W>, s: System<W>, j: nat, users: map<nat, User>)
    requires OwnOk(g, s.db.rows, s.clock, users) && j in s.db.rows && Lapsed(users, s.db.rows[j].saved.conn)
    ensures Barred(s, j, users)
  {
    hide Shape, Unique;
    assert Holds(g, users, s.db.rows[j]);
  }

  // Once the credential stored for a session no longer holds, no later delivery, of its
  // own requests or of others, in any order and from any core, ever runs a command of it.
  lemma RevokedNeverRuns<W(!new)>(g: Game<W>, world: W, edge: nat, id: nat, before: seq<Label>, s: System<W>, users: map<nat, User>,
                                  present: map<nat, User>, j: nat, after: seq<Label>, t: System<W>)
    requires Owned(g) && Reaches(g, Initial(world, edge, id), before, s) && Advancing(users, before)
    requires Advances(UsersAfter(users, before), present)
    requires j in s.db.rows && Lapsed(present, s.db.rows[j].saved.conn)
    requires Reaches(g, s, after, t) && Advancing(present, after)
    ensures Runs(t.log, j) == Runs(s.log, j)
    ensures Barred(t, j, UsersAfter(present, after))
  {
    InitialInv(world, edge, id);
    RunInv(g, Initial(world, edge, id), before, s);
    InitialOwn(g, world, edge, id, users);
    RunOwn(g, Initial(world, edge, id), before, s, users);
    hide Reaches, Inv, Owned, Advancing, OwnOk, Barred, Lapsed, Runs;
    SweptOwn(g, s.db.rows, s.clock, UsersAfter(users, before), s.clock, present);
    LapsedIsBarred(g, s, j, present);
    RunBarred(g, s, after, t, j, present);
  }

  // ---------------------------------------------------------------- the dispatches of others

  // A live row of another session whose credential no longer holds.
  predicate Awaits(users: map<nat, User>, rows: map<nat, Row>, now: int, j: nat) {
    j in rows && Current(rows[j], now) && Lapsed(users, rows[j].saved.conn)
  }

  predicate FailedRun<W>(r: Result<W>) {
    r.Committed? && r.run.Some? && r.run.value.outcome == Failed
  }

  lemma AwaitsCut<W>(g: Game<W>, env: Env, db: Database<W>, req: Request, j: nat)
    requires RowsOk(db.rows) && Awaits(env.users, Sweep(db.rows, env.now), env.now, j) && j != req.id
    ensures var rows := Sweep(db.rows, env.now); j in Cut(env.users, Sessions(rows, req, env.now), req)
  {
    hide Shape;
    SweepOk(db.rows, env.now);
    assert RowOk(Sweep(db.rows, env.now)[j]);
  }

  // The dispatch of another session that finds a revoked one closes its row and empties
  // its outbox exactly when its command did not fail; when it failed, the row is left as
  // it was, credential and all.
  lemma CutUnlessFailed<W>(g: Game<W>, env: Env, db: Database<W>, req: Request, j: nat)
    requires RowsOk(db.rows) && Awaits(env.users, Sweep(db.rows, env.now), env.now, j) && j != req.id
    ensures var r := Dispatch(g, env, db, req);
            var row := Sweep(db.rows, env.now)[j];
            r.Committed? ==>
              && j in r.db.rows
              && (r.db.rows[j].closed <==> !FailedRun(r))
              && (if FailedRun(r) then r.db.rows[j] == row else CutRow(row, r.db.rows[j]) && j in r.cut)
  {
    hide Serve, Dispatch, Opening, Sessions, Cut, Overflows, Shape, CutOff, KeptRow, RequesterRow, Unique, Current;
    var rows := Sweep(db.rows, env.now);
    var sessions := Sessions(rows, req, env.now);
    SweepOk(db.rows, env.now);
    DispatchServes(g, env, db, req);
    AwaitsCut(g, env, db, req, j);
    AwaitsOpen(env.users, rows, env.now, j);
    var r := Dispatch(g, env, db, req);
    if r.Committed? {
      ServeUnfold(g, env, db, rows, sessions, req);
      DispatchStep(g, env, db, req);
      FailedDispatch(g, env, db, req, j);
      OpeningPlayers(g, env, db.world, rows, sessions, req, j);
    }
  }

  lemma AwaitsOpen(users: map<nat, User>, rows: map<nat, Row>, now: int, j: nat)
    requires Awaits(users, rows, now, j)
    ensures !rows[j].closed
  {
  }

  // A revocation a failing command delayed is found again: whatever happens in between,
  // the row stays withdrawn, and the first committed dispatch of another session whose
  // command does not fail closes it, if its lease still runs.
  lemma FoundAgain<W>(g: Game<W>, s: System<W>, ls: seq<Label>, t: System<W>, j: nat, users: map<nat, User>, req: Request, env: Env)
    requires Inv(s) && j in s.db.rows && Withdrawn(users, s.db.rows[j].saved.conn)
    requires Reaches(g, s, ls, t) && Advancing(users, ls)
    requires Enabled(t, Deliver(req, env)) && Advances(UsersAfter(users, ls), env.users) && req.id != j
    requires j in t.db.rows && Current(t.db.rows[j], env.now)
    requires Dispatch(g, env, t.db, req).Committed? && !FailedRun(Dispatch(g, env, t.db, req))
    ensures Over(Delivered(g, t, req, env), j) && j in Delivered(g, t, req, env).cut
  {
    hide Inv, Reaches, Advancing, Dispatch, Enabled, Extend, Withdrawn, Lapsed, Current, CutRow, KeptRow, Advances;
    RunInv(g, s, ls, t);
    RunBarred(g, s, ls, t, j, users);
    OpenRow(t, j, env.now);
    WithdrawnStays(UsersAfter(users, ls), env.users, t.db.rows[j].saved.conn);
    WithdrawnLapsed(env.users, t.db.rows[j].saved.conn);
    SweptCurrent(t.db.rows, env.now, j);
    InvRows(t);
    CutUnlessFailed(g, env, t.db, req, j);
    CutCloses(Sweep(t.db.rows, env.now)[j], Dispatch(g, env, t.db, req).db.rows[j]);
  }

  lemma CutCloses(r: Row, u: Row)
    ensures CutRow(r, u) ==> u.closed
  {
  }

  lemma InvRows<W>(s: System<W>)
    requires Inv(s)
    ensures RowsOk(s.db.rows)
  {
    hide HonestOk;
    SweptRows(s, s.clock);
  }

  lemma OpenRow<W>(s: System<W>, j: nat, now: int)
    requires Inv(s) && j in s.db.rows && Current(s.db.rows[j], now)
    ensures !Over(s, j)
  {
    hide HonestOk, Shape;
    assert SessionAt(s, j);
  }

  lemma SweptCurrent(rows: map<nat, Row>, now: int, j: nat)
    requires j in rows && Current(rows[j], now)
    ensures j in Sweep(rows, now) && Sweep(rows, now)[j] == rows[j]
  {
  }
}
