// The terminal of an honest edge against the core: lockstep of sequences and
// acknowledgements, and what it has written of each session's output.
module Honest {
  import opened Wrappers
  import opened Terminalwire
  import opened CoreSession
  import opened CoreDispatch
  import opened RowFacts
  import opened Edge
  import opened Protocol

  // A session that can never be answered but with a reset or a close again.
  ghost predicate Dead<W>(s: System<W>, j: nat) {
    j in s.purged || Expired(s.db.rows, j, s.clock)
  }

  ghost predicate ScriptOk(script: seq<Command>) {
    && script != [] && script[0] == Command(Open, "")
    && (forall k :: 0 <= k < |script| ==> (script[k].kind == Open ==> k == 0) && |script[k].line| <= LINE_LIMIT)
  }

  ghost predicate TermOk(t: Terminal) {
    && t.written.Keys == t.script.Keys && t.req.id in t.script
    && (forall j :: j in t.script ==> ScriptOk(t.script[j]))
    && |t.script[t.req.id]| == t.req.sequence
    && (if t.done then t.req.kind == Close && t.req.line == ""
        else t.script[t.req.id][t.req.sequence - 1] == Command(t.req.kind, t.req.line))
    && t.req.ack == LastId(t.written[t.req.id])
  }

  function LastId(outs: seq<Output>): nat {
    if outs == [] then 0 else outs[|outs| - 1].id
  }

  // What the socket has seen of a session: in order, nothing twice, and while nothing
  // was withdrawn nothing missing either.
  ghost predicate WrittenOk(w: seq<Output>, st: seq<Output>, cut: bool) {
    Ascending(w) && (forall o :: o in w ==> o in st) && (!cut ==> w <= st)
  }

  ghost predicate Sent(t: Terminal, r: Request)
    requires t.req.id in t.script
  {
    && r.edge == t.req.edge && 1 <= r.sequence <= t.req.sequence && r.ack <= t.req.ack
    && |r.line| <= LINE_LIMIT
    && (r.kind != Close ==> r.sequence <= |t.script[t.req.id]|
                            && t.script[t.req.id][r.sequence - 1] == Command(r.kind, r.line))
  }

  ghost predicate NetOk(t: Terminal, net: set<Request>)
    requires t.req.id in t.script
  {
    forall r :: r in net ==> r.id in t.script && (r.id == t.req.id ==> Sent(t, r))
  }

  // The core is at the sequence of the edge or one before it, and whatever left the
  // outbox was acknowledged.
  ghost predicate Lock(row: Option<Row>, req: Request, cut: bool, purged: bool) {
    match row
    case Some(r) =>
      && r.edge == req.edge && r.sequence <= req.sequence <= r.sequence + 1
      && req.ack <= r.saved.nextOutput
      && (!cut ==> r.saved.nextOutput - |r.saved.output| <= req.ack)
    case None => purged || (req.sequence == 1 && req.ack == 0)
  }

  ghost predicate ReplyOk(p: Response, req: Request, row: Option<Row>, dead: bool, runs: seq<Run>, st: seq<Output>, cut: bool) {
    && (p.reset || row.None? ==> dead)
    && (!p.reset ==>
          && p.sequence == req.sequence && Ascending(p.output)
          && (forall o :: o in p.output ==> o in st && o.id > req.ack)
          && (!cut ==> req.ack + |p.output| <= |st| && p.output == st[req.ack..req.ack + |p.output|])
          && (row.Some? ==> forall o :: o in p.output ==> o.id <= row.value.saved.nextOutput)
          && (req.kind == Close ==> p.closed))
    && (!p.reset && !p.closed ==>
          |runs| >= req.sequence && (row.Some? ==> row.value.sequence == req.sequence))
  }

  ghost predicate Matching(runs: seq<Run>, script: seq<Command>) {
    |runs| <= |script| && forall k :: 0 <= k < |runs| ==> Command(runs[k].kind, runs[k].line) == script[k]
  }

  ghost predicate MatchingAt<W>(s: System<W>, j: nat)
    requires j in s.term.script
  {
    Matching(Runs(s.log, j), s.term.script[j])
  }

  ghost predicate WrittenAt<W>(s: System<W>, j: nat)
    requires j in s.term.written
  {
    WrittenOk(s.term.written[j], StreamOf(s.stream, j), j in s.cut)
  }

  ghost predicate AnsweredAt<W>(s: System<W>, p: Response) {
    var x := s.term.req.id;
    ReplyOk(p, s.term.req, RowOf(s.db.rows, x), Dead(s, x), Runs(s.log, x), StreamOf(s.stream, x), x in s.cut)
  }

  ghost predicate HonestOk<W>(s: System<W>) {
    var t := s.term;
    && TermOk(t) && NetOk(t, s.net)
    && Lock(RowOf(s.db.rows, t.req.id), t.req, t.req.id in s.cut, t.req.id in s.purged)
    && (forall j :: j in t.script ==> MatchingAt(s, j))
    && (forall j :: j in t.written ==> WrittenAt(s, j))
    && (forall j :: j in t.script && j != t.req.id ==> Dead(s, j))
    && (!t.done ==> forall p :: p in s.replies ==> AnsweredAt(s, p))
  }

  ghost predicate Inv<W>(s: System<W>) {
    SessionsOk(s) && HonestOk(s)
  }

  // ---------------------------------------------------------------- the requester's row

  // A committed request of this session keeps the lock.
  lemma LockRequester(t: Terminal, req: Request, now: int, r: Row, u: Row, run: Option<Run>, cut: bool, newly: bool)
    requires TermOk(t) && req.id == t.req.id && Sent(t, req)
    requires Shape(r.saved) && Lock(Some(r), t.req, cut, false) && RequesterRow(req, now, r, u, run, newly)
    ensures Lock(Some(u), t.req, cut || newly, false)
  {
    TrimKeeps(r.saved, req.ack);
  }

  // Everything still pending after the request is newer than its acknowledgement.
  lemma PendingAfter(req: Request, now: int, r: Row, u: Row, run: Option<Run>, cut: bool, newly: bool)
    requires Shape(r.saved) && RequesterRow(req, now, r, u, run, newly)
    requires !cut ==> r.saved.nextOutput - |r.saved.output| <= req.ack
    ensures Shape(u.saved)
    ensures forall i :: 0 <= i < |u.saved.output| ==> u.saved.output[i].id > req.ack
    ensures !(cut || newly) ==> |u.saved.output| == u.saved.nextOutput - req.ack
  {
    TrimKeeps(r.saved, req.ack);
  }

  lemma SequenceAfter(req: Request, now: int, r: Row, u: Row, run: Option<Run>, newly: bool)
    requires RequesterRow(req, now, r, u, run, newly) && r.sequence <= req.sequence <= r.sequence + 1
    ensures u.sequence == req.sequence && (req.kind == Close ==> u.closed)
  {
  }

  // What the commit answers, if the request is the current one.
  lemma AnswerOk(req: Request, now: int, r: Row, u: Row, run: Option<Run>, cut: bool, newly: bool,
                 runs: seq<Run>, st: seq<Output>, dead: bool)
    requires Shape(r.saved) && Lock(Some(r), req, cut, false) && RequesterRow(req, now, r, u, run, newly)
    requires OutboxOk(u.saved, st, cut || newly) && (!u.closed ==> |runs| == u.sequence)
    ensures ReplyOk(Response(u.sequence, u.saved.output, u.closed, false), req, Some(u), dead, runs, st, cut || newly)
  {
    PendingAfter(req, now, r, u, run, cut, newly);
    SequenceAfter(req, now, r, u, run, newly);
    hide RequesterRow;
    var out := u.saved.output;
    if !(cut || newly) {
      assert out == st[req.ack..req.ack + |out|];
    }
  }

  // ---------------------------------------------------------------- what later commits keep

  lemma KeptLock(r: Row, u: Row, req: Request, cut: bool)
    requires Lock(Some(r), req, cut, false) && KeptRow(r, u)
    ensures Lock(Some(u), req, cut, false)
  {
  }

  lemma CutLock(r: Row, u: Row, req: Request, cut: bool)
    requires Lock(Some(r), req, cut, false) && CutRow(r, u)
    ensures Lock(Some(u), req, true, false)
  {
  }

  // A waiting answer stays valid while streams, runs and withdrawals only grow.
  lemma KeptReply(p: Response, req: Request, row: Option<Row>, dead: bool, runs: seq<Run>, st: seq<Output>, cut: bool,
                  row': Option<Row>, dead': bool, runs': seq<Run>, st': seq<Output>, cut': bool)
    requires ReplyOk(p, req, row, dead, runs, st, cut)
    requires (dead ==> dead') && (cut ==> cut') && runs <= runs' && st <= st'
    requires row.None? ==> row'.None?
    requires row'.None? ==> dead'
    requires row.Some? && row'.Some? ==>
               row'.value.saved.nextOutput >= row.value.saved.nextOutput
               && (row.value.sequence == req.sequence ==> row'.value.sequence == req.sequence)
    ensures ReplyOk(p, req, row', dead', runs', st', cut')
  {
    if !p.reset && !cut' {
      assert st'[req.ack..req.ack + |p.output|] == st[req.ack..req.ack + |p.output|];
    }
  }

  lemma KeptWritten(w: seq<Output>, st: seq<Output>, cut: bool, st': seq<Output>, cut': bool)
    requires WrittenOk(w, st, cut) && st <= st' && (cut ==> cut')
    ensures WrittenOk(w, st', cut')
  {
  }

  lemma StreamGrows(stream: map<nat, seq<Output>>, rows: map<nat, Row>, stored: map<nat, Row>, j: nat)
    ensures StreamOf(stream, j) <= StreamOf(Extend(stream, rows, stored), j)
  {
  }

  lemma RunsGrow<W>(s: System<W>, req: Request, now: int, r: Result<W>, j: nat)
    requires r.Committed? && (r.run.Some? ==> r.run.value.id == req.id)
    ensures var t := Commit(s, req, now, r);
            Runs(t.log, j) == if r.run.Some? && j == req.id then Runs(s.log, j) + [r.run.value] else Runs(s.log, j)
  {
    hide Extend;
    if r.run.Some? {
      RunsAppend(s.log, r.run.value, j);
    }
  }

  lemma DeadStays<W>(s: System<W>, req: Request, now: int, r: Result<W>, j: nat)
    requires r.Committed? && now >= s.clock && Dead(s, j)
    requires r.db.rows.Keys == Sweep(s.db.rows, now).Keys + {req.id} && j != req.id
    ensures Dead(Commit(s, req, now, r), j)
  {
    hide Extend;
  }

  // A request of the terminal that commits belongs to its current session.
  lemma CommitsCurrent<W>(g: Game<W>, s: System<W>, req: Request, env: Env)
    requires Inv(s) && Timely(s, req, env) && Dispatch(g, env, s.db, req).Committed?
    requires req in s.net || req.id !in s.term.script
    ensures !Dead(s.(clock := env.now), req.id)
    ensures req.id == s.term.req.id || req.id !in s.term.script
    ensures req.id == s.term.req.id ==> Sent(s.term, req)
    ensures req.id !in Sweep(s.db.rows, env.now) ==> req.id !in s.purged && !Expired(s.db.rows, req.id, env.now)
  {
    hide Dispatch, Step, SessionOk, Lock, MatchingAt, WrittenAt, AnsweredAt, ScriptOk;
    SweptRows(s, env.now);
    DispatchStep(g, env, s.db, req);
    assert SessionAt(s, req.id);
    NotPurged(RowOf(s.db.rows, req.id), Runs(s.log, req.id), StreamOf(s.stream, req.id),
              req.id in s.cut, req.id in s.purged, req.id in s.departed);
    assert req.id in s.term.script && req.id != s.term.req.id ==> Dead(s, req.id);
  }

  // The lock over a commit, whoever sent the request.
  lemma CommitLock<W>(s: System<W>, req: Request, env: Env, r: Result<W>)
    requires Inv(s) && r.Committed? && Step(env, Sweep(s.db.rows, env.now), req, r)
    requires req.id == s.term.req.id ==> Sent(s.term, req)
    requires req.id !in Sweep(s.db.rows, env.now) ==> req.id !in s.purged && !Expired(s.db.rows, req.id, env.now)
    ensures var x := s.term.req.id;
            var t := Commit(s, req, env.now, r);
            Lock(RowOf(t.db.rows, x), s.term.req, x in t.cut, x in t.purged)
  {
    hide SessionOk, RequesterRow, Start, Unique, CutRow, KeptRow, Extend, TermOk, ReplyOk, Shape, MatchingAt, WrittenAt, AnsweredAt;
    var x := s.term.req.id;
    var rows := Sweep(s.db.rows, env.now);
    TermCurrent(s.term);
    assert SessionAt(s, x);
    NotPurged(RowOf(s.db.rows, x), Runs(s.log, x), StreamOf(s.stream, x), x in s.cut, x in s.purged, x in s.departed);
    if x == req.id {
      LockStart(s.term, rows, req, x in s.cut);
      StartSession(s, req, env.now);
      ShapeStart(Start(rows, req), Runs(s.log, x), StreamOf(s.stream, x), x in s.cut, x in s.departed);
      LockRequester(s.term, req, env.now, Start(rows, req), r.db.rows[x], r.run, x in s.cut, x in r.cut);
      RequesterUnpurged(s, req, env.now);
    } else if x in rows {
      if x in r.cut {
        CutLock(rows[x], r.db.rows[x], s.term.req, x in s.cut);
      } else {
        KeptLock(rows[x], r.db.rows[x], s.term.req, x in s.cut);
      }
    }
  }

  lemma TermCurrent(t: Terminal)
    requires TermOk(t)
    ensures t.req.id in t.script && t.req.id in t.written && t.written.Keys == t.script.Keys
  {
  }

  lemma ShapeStart(r: Row, runs: seq<Run>, st: seq<Output>, cut: bool, departed: bool)
    requires SessionOk(Some(r), runs, st, cut, false, departed)
    ensures Shape(r.saved)
  {
  }

  lemma LockStart(t: Terminal, rows: map<nat, Row>, req: Request, cut: bool)
    requires t.req.id in t.script && Sent(t, req)
    requires Lock(RowOf(rows, req.id), t.req, cut, false)
    ensures Lock(Some(Start(rows, req)), t.req, cut, false)
  {
  }

  // The answers that wait for the edge, over a commit.
  lemma CommitReplies<W>(s: System<W>, req: Request, env: Env, r: Result<W>, p: Response)
    requires Inv(s) && r.Committed? && Step(env, Sweep(s.db.rows, env.now), req, r) && env.now >= s.clock
    requires req.id == s.term.req.id ==> Sent(s.term, req) && !Dead(s, req.id)
    requires req.id !in Sweep(s.db.rows, env.now) ==> req.id !in s.purged && !Expired(s.db.rows, req.id, env.now)
    requires AnsweredAt(s, p)
    ensures AnsweredAt(Commit(s, req, env.now, r), p)
  {
    hide SessionOk, Unique, Extend, TermOk, ReplyOk, Shape, MatchingAt, WrittenAt, Sent, KeptRow, CutRow, RequesterRow, Lock, Runs;
    var x := s.term.req.id;
    var t := Commit(s, req, env.now, r);
    var rows := Sweep(s.db.rows, env.now);
    assert SessionAt(s, x);
    TermCurrent(s.term);
    NotPurged(RowOf(s.db.rows, x), Runs(s.log, x), StreamOf(s.stream, x), x in s.cut, x in s.purged, x in s.departed);
    RunOfRequester(req, env.now, Start(rows, req), r.db.rows[req.id], r.run, req.id in r.cut);
    StreamGrows(s.stream, rows, r.db.rows, x);
    RunsGrow(s, req, env.now, r, x);
    NoRowDead(p, s.term.req, RowOf(s.db.rows, x), Dead(s, x), Runs(s.log, x), StreamOf(s.stream, x), x in s.cut);
    if Dead(s, x) {
      DeadStays(s, req, env.now, r, x);
    }
    if x in s.db.rows && x in r.db.rows {
      assert x in rows;
      if x == req.id {
        RequesterKeeps(s.term, req, env.now, rows[x], r.db.rows[x], r.run, x in r.cut);
      } else {
        BystanderKeeps(rows[x], r.db.rows[x], x in r.cut);
      }
    }
    KeptReply(p, s.term.req, RowOf(s.db.rows, x), Dead(s, x), Runs(s.log, x), StreamOf(s.stream, x), x in s.cut,
              RowOf(t.db.rows, x), Dead(t, x), Runs(t.log, x), StreamOf(t.stream, x), x in t.cut);
  }

  lemma NoRowDead(p: Response, req: Request, row: Option<Row>, dead: bool, runs: seq<Run>, st: seq<Output>, cut: bool)
    requires ReplyOk(p, req, row, dead, runs, st, cut)
    ensures row.None? ==> dead
  {
  }

  lemma RequesterKeeps(t: Terminal, req: Request, now: int, r: Row, u: Row, run: Option<Run>, newly: bool)
    requires t.req.id in t.script && Sent(t, req) && RequesterRow(req, now, r, u, run, newly)
    ensures u.saved.nextOutput >= r.saved.nextOutput
    ensures r.sequence == t.req.sequence ==> u.sequence == r.sequence
  {
  }

  lemma BystanderKeeps(r: Row, u: Row, cut: bool)
    requires if cut then CutRow(r, u) else KeptRow(r, u)
    ensures u.saved.nextOutput >= r.saved.nextOutput && u.sequence == r.sequence
  {
  }

  // The answer to the current request joins the waiting ones.
  lemma CommitAnswers<W>(s: System<W>, req: Request, env: Env, r: Result<W>)
    requires Inv(s) && r.Committed? && Step(env, Sweep(s.db.rows, env.now), req, r) && env.now >= s.clock
    requires req == s.term.req && !s.term.done && Sent(s.term, req)
    requires req.id !in Sweep(s.db.rows, env.now) ==> req.id !in s.purged && !Expired(s.db.rows, req.id, env.now)
    ensures AnsweredAt(Commit(s, req, env.now, r), r.reply)
  {
    hide Unique, Extend, SessionOk, TermOk, ReplyOk, Shape, MatchingAt, WrittenAt, KeptRow, CutRow, RequesterRow, Runs, Start, Lock, Sent, RowOf;
    var x := req.id;
    var t := Commit(s, req, env.now, r);
    CommittedRequester(s, req, env, r);
    CommitLockStart(s, req, env.now);
    StartSession(s, req, env.now);
    var start := Start(Sweep(s.db.rows, env.now), req);
    ShapeStart(start, Runs(s.log, x), StreamOf(s.stream, x), x in s.cut, x in s.departed);
    OpenRanAll(t, x);
    AnswerOk(req, env.now, start, r.db.rows[x], r.run, x in s.cut, x in r.cut,
             Runs(t.log, x), StreamOf(t.stream, x), Dead(t, x));
    RowOfStored(t.db.rows, x);
  }

  lemma RowOfStored(rows: map<nat, Row>, x: nat)
    ensures x in rows ==> RowOf(rows, x) == Some(rows[x])
  {
  }

  lemma OpenRanAll<W>(s: System<W>, x: nat)
    requires SessionAt(s, x) && x in s.db.rows
    ensures OutboxOk(s.db.rows[x].saved, StreamOf(s.stream, x), x in s.cut)
    ensures !s.db.rows[x].closed ==> |Runs(s.log, x)| == s.db.rows[x].sequence
  {
  }

  lemma CommitLockStart<W>(s: System<W>, req: Request, now: int)
    requires Inv(s) && req == s.term.req && Sent(s.term, req)
    requires req.id !in Sweep(s.db.rows, now) ==> req.id !in s.purged && !Expired(s.db.rows, req.id, now)
    ensures Lock(Some(Start(Sweep(s.db.rows, now), req)), req, req.id in s.cut, false)
  {
    hide SessionOk, TermOk, ReplyOk, Shape, MatchingAt, WrittenAt;
    assert SessionAt(s, req.id);
    NotPurged(RowOf(s.db.rows, req.id), Runs(s.log, req.id), StreamOf(s.stream, req.id),
              req.id in s.cut, req.id in s.purged, req.id in s.departed);
    TermCurrent(s.term);
    LockStart(s.term, Sweep(s.db.rows, now), req, req.id in s.cut);
  }

  lemma CommitMatching<W>(s: System<W>, req: Request, env: Env, r: Result<W>, j: nat)
    requires Inv(s) && r.Committed? && Step(env, Sweep(s.db.rows, env.now), req, r)
    requires req.id == s.term.req.id ==> Sent(s.term, req)
    requires req.id == s.term.req.id || req.id !in s.term.script
    requires req.id !in Sweep(s.db.rows, env.now) ==> req.id !in s.purged && !Expired(s.db.rows, req.id, env.now)
    requires j in s.term.script
    ensures MatchingAt(Commit(s, req, env.now, r), j)
  {
    hide Unique, Extend, SessionOk, TermOk, ReplyOk, Shape, WrittenAt, KeptRow, CutRow, Runs, Start, Lock;
    var start := Start(Sweep(s.db.rows, env.now), req);
    RunOfRequester(req, env.now, start, r.db.rows[req.id], r.run, req.id in r.cut);
    RunsGrow(s, req, env.now, r, j);
    assert MatchingAt(s, j);
    if j == req.id && r.run.Some? {
      StartSession(s, req, env.now);
      RunsBehind(start, Runs(s.log, j), StreamOf(s.stream, j), j in s.cut, j in s.departed);
    }
  }

  lemma RunsBehind(r: Row, runs: seq<Run>, st: seq<Output>, cut: bool, departed: bool)
    requires SessionOk(Some(r), runs, st, cut, false, departed)
    ensures !r.closed ==> |runs| == r.sequence
  {
  }

  lemma CommitWritten<W>(s: System<W>, req: Request, now: int, r: Result<W>, j: nat)
    requires HonestOk(s) && r.Committed? && j in s.term.written
    ensures WrittenAt(Commit(s, req, now, r), j)
  {
    hide Extend, TermOk, ReplyOk, MatchingAt, Lock, WrittenOk;
    assert WrittenAt(s, j);
    StreamGrows(s.stream, Sweep(s.db.rows, now), r.db.rows, j);
    KeptWritten(s.term.written[j], StreamOf(s.stream, j), j in s.cut,
                StreamOf(Commit(s, req, now, r).stream, j), j in s.cut + r.cut);
  }

  lemma CommitHonest<W>(g: Game<W>, s: System<W>, req: Request, env: Env)
    requires Inv(s) && Timely(s, req, env) && Dispatch(g, env, s.db, req).Committed?
    requires req in s.net || req.id !in s.term.script
    ensures HonestOk(Delivered(g, s, req, env))
  {
    hide Dispatch, Unique, Extend, SessionAt, SessionOk, TermOk, ReplyOk, WrittenOk, Matching, Lock, Sent, Step, Sweep, Runs;
    var r := Dispatch(g, env, s.db, req);
    SweptRows(s, env.now);
    DispatchStep(g, env, s.db, req);
    CommitsCurrent(g, s, req, env);
    TermCurrent(s.term);
    CommitLock(s, req, env, r);
    var t := Delivered(g, s, req, env);
    forall j | j in s.term.script
      ensures MatchingAt(t, j) && WrittenAt(t, j) && (j != s.term.req.id ==> Dead(t, j))
    {
      CommitMatching(s, req, env, r, j);
      CommitWritten(s, req, env.now, r, j);
      if j != s.term.req.id {
        assert Dead(s, j);
        CommitDead(s, req, env, r, j);
      }
    }
    if !s.term.done {
      forall p | p in t.replies
        ensures AnsweredAt(t, p)
      {
        if p in s.replies {
          CommitReplies(s, req, env, r, p);
        } else {
          CommitAnswers(s, req, env, r);
        }
      }
    }
  }

  lemma CommitDead<W>(s: System<W>, req: Request, env: Env, r: Result<W>, j: nat)
    requires r.Committed? && Step(env, Sweep(s.db.rows, env.now), req, r)
    requires Dead(s, j) && env.now >= s.clock && !Dead(s.(clock := env.now), req.id)
    ensures Dead(Commit(s, req, env.now, r), j)
  {
    hide Extend, RequesterRow, KeptRow, CutRow, Unique;
    DeadStays(s, req, env.now, r, j);
  }

  // ---------------------------------------------------------------- dispatches without a commit

  // With nothing withdrawn the acknowledgement counts the outputs written.
  lemma AckCounts(w: seq<Output>, st: seq<Output>)
    requires WrittenOk(w, st, false) && forall i :: 0 <= i < |st| ==> st[i].id == i + 1
    ensures LastId(w) == |w| <= |st|
  {
  }

  lemma UncutStream<W>(s: System<W>, j: nat)
    requires SessionAt(s, j) && j !in s.cut
    ensures forall i :: 0 <= i < |StreamOf(s.stream, j)| ==> StreamOf(s.stream, j)[i].id == i + 1
  {
  }

  lemma LaterReply<W>(s: System<W>, now: int, p: Response)
    requires AnsweredAt(s, p) && now >= s.clock
    ensures AnsweredAt(s.(clock := now), p)
  {
    var x := s.term.req.id;
    var t := s.(clock := now);
    hide ReplyOk;
    NoRowDead(p, s.term.req, RowOf(s.db.rows, x), Dead(s, x), Runs(s.log, x), StreamOf(s.stream, x), x in s.cut);
    KeptReply(p, s.term.req, RowOf(s.db.rows, x), Dead(s, x), Runs(s.log, x), StreamOf(s.stream, x), x in s.cut,
              RowOf(t.db.rows, x), Dead(t, x), Runs(t.log, x), StreamOf(t.stream, x), x in t.cut);
  }

  lemma OpensFirst(t: Terminal)
    requires TermOk(t) && !t.done
    ensures (t.req.kind == Open <==> t.req.sequence == 1) && t.req.sequence >= 1
  {
  }

  lemma AnsweredReply<W>(s: System<W>, req: Request, now: int, p: Response)
    requires Inv(s) && req == s.term.req && !s.term.done && now >= s.clock
    requires req.id !in Sweep(s.db.rows, now)
    requires p.sequence == req.sequence && p.output == []
    requires if req.kind == Close then p.closed && !p.reset else p.reset && !(req.kind == Open && req.sequence == 1)
    ensures AnsweredAt(s.(clock := now), p)
  {
    hide SessionOk, MatchingAt, AnsweredAt;
    var x := req.id;
    TermCurrent(s.term);
    OpensFirst(s.term);
    assert SessionAt(s, x);
    assert WrittenAt(s, x);
    assert Dead(s.(clock := now), x);
    if x !in s.cut {
      UncutStream(s, x);
      AckCounts(s.term.written[x], StreamOf(s.stream, x));
    }
    BareReply(p, req, RowOf(s.db.rows, x), Runs(s.log, x), StreamOf(s.stream, x), x in s.cut);
    ReplyAt(s.(clock := now), p);
  }

  lemma ReplyAt<W>(s: System<W>, p: Response)
    requires var x := s.term.req.id;
             ReplyOk(p, s.term.req, RowOf(s.db.rows, x), Dead(s, x), Runs(s.log, x), StreamOf(s.stream, x), x in s.cut)
    ensures AnsweredAt(s, p)
  {
  }

  lemma BareReply(p: Response, req: Request, row: Option<Row>, runs: seq<Run>, st: seq<Output>, cut: bool)
    requires p.sequence == req.sequence && p.output == [] && (p.reset || p.closed)
    requires !p.reset ==> req.kind == Close
    requires !cut ==> req.ack <= |st|
    ensures ReplyOk(p, req, row, true, runs, st, cut)
  {
    if !cut {
      assert st[req.ack..req.ack] == [];
    }
  }

  lemma UncommittedHonest<W>(g: Game<W>, s: System<W>, req: Request, env: Env)
    requires Inv(s) && env.now >= s.clock && !Dispatch(g, env, s.db, req).Committed?
    ensures HonestOk(Delivered(g, s, req, env))
  {
    hide Dispatch, SessionOk, TermOk, ReplyOk, Lock, Sent, Sweep, Runs, WrittenOk, Matching;
    var t := Delivered(g, s, req, env);
    TermCurrent(s.term);
    forall j | j in s.term.script
      ensures MatchingAt(t, j) && WrittenAt(t, j) && (j != s.term.req.id ==> Dead(t, j))
    {
      assert MatchingAt(s, j) && WrittenAt(s, j);
      if j != s.term.req.id {
        assert Dead(s, j);
      }
    }
    if !s.term.done {
      forall p | p in t.replies
        ensures AnsweredAt(t, p)
      {
        if p in s.replies {
          LaterReply(s, env.now, p);
          SameAnswer(s.(clock := env.now), t, p);
        } else {
          DispatchAnswered(g, env, s.db, req);
          AnsweredReply(s, req, env.now, p);
          SameAnswer(s.(clock := env.now), t, p);
        }
      }
    }
  }

  lemma SameAnswer<W>(s: System<W>, t: System<W>, p: Response)
    requires AnsweredAt(s, p) && t == s.(replies := t.replies)
    ensures AnsweredAt(t, p)
  {
  }

  // ---------------------------------------------------------------- the edge's own steps

  lemma TransmitHonest<W>(s: System<W>)
    requires HonestOk(s)
    ensures HonestOk(s.(net := s.net + {s.term.req}))
  {
    hide ReplyOk, Lock, Runs, WrittenOk, Matching;
    var t := s.(net := s.net + {s.term.req});
    forall j | j in s.term.script
      ensures MatchingAt(t, j) && WrittenAt(t, j) && (j != s.term.req.id ==> Dead(t, j))
    {
      assert MatchingAt(s, j) && WrittenAt(s, j);
      assert j != s.term.req.id ==> Dead(s, j);
    }
    assert Sent(s.term, s.term.req);
    if !s.term.done {
      forall p | p in t.replies
        ensures AnsweredAt(t, p)
      {
        assert AnsweredAt(s, p);
      }
    }
  }

  lemma FinishHonest<W>(s: System<W>)
    requires HonestOk(s)
    ensures HonestOk(s.(term := Finish(s.term), replies := {}))
  {
    hide ReplyOk, Runs, WrittenOk, Matching;
    var t := s.(term := Finish(s.term), replies := {});
    forall j | j in s.term.script
      ensures MatchingAt(t, j) && WrittenAt(t, j) && (j != s.term.req.id ==> Dead(t, j))
    {
      assert MatchingAt(s, j) && WrittenAt(s, j);
      assert j != s.term.req.id ==> Dead(s, j);
    }
    forall r | r in s.net && r.id == s.term.req.id
      ensures Sent(t.term, r)
    {
      assert Sent(s.term, r);
    }
  }

  lemma RedialTerm(t: Terminal, net: set<Request>, id: nat)
    requires TermOk(t) && !t.done && NetOk(t, net) && id !in t.script
    ensures TermOk(Redial(t, id)) && NetOk(Redial(t, id), net)
  {
  }

  lemma RedialFresh<W>(s: System<W>, id: nat)
    requires SessionsOk(s) && id !in s.db.rows && id !in s.purged && id !in s.term.script
    ensures var t := s.(term := Redial(s.term, id), replies := {});
            MatchingAt(t, id) && WrittenAt(t, id) && Lock(RowOf(t.db.rows, id), t.term.req, id in t.cut, id in t.purged)
  {
    hide Runs;
    assert SessionAt(s, id);
  }

  lemma RedialHonest<W>(s: System<W>, id: nat)
    requires Inv(s) && !s.term.done && Dead(s, s.term.req.id)
    requires id !in s.term.script && id !in s.db.rows && id !in s.purged
    ensures HonestOk(s.(term := Redial(s.term, id), replies := {}))
  {
    hide ReplyOk, Runs, TermOk, NetOk, Lock, WrittenOk, Matching, SessionsOk;
    var t := s.(term := Redial(s.term, id), replies := {});
    TermCurrent(s.term);
    RedialTerm(s.term, s.net, id);
    RedialFresh(s, id);
    forall j | j in t.term.script
      ensures MatchingAt(t, j) && WrittenAt(t, j) && (j != id ==> Dead(t, j))
    {
      if j != id {
        assert MatchingAt(s, j) && WrittenAt(s, j);
        assert j != s.term.req.id ==> Dead(s, j);
      }
    }
  }

  // Writing an answer appends its outputs, none of which was written before.
  lemma {:induction false} ReceiveAppends(t: Terminal, outs: seq<Output>)
    requires t.req.id in t.written && Ascending(outs) && forall o :: o in outs ==> o.id > t.req.ack
    requires t.req.ack == LastId(t.written[t.req.id])
    ensures var r := Receive(t, outs);
            && r.req == t.req.(ack := r.req.ack) && r.script == t.script && r.done == t.done
            && r.written == t.written[t.req.id := t.written[t.req.id] + outs]
            && r.req.ack == LastId(t.written[t.req.id] + outs)
    decreases |outs|
  {
    if outs == [] {
      assert t.written[t.req.id] + outs == t.written[t.req.id];
    } else {
      var u := t.(written := t.written[t.req.id := t.written[t.req.id] + [outs[0]]],
                  req := t.req.(ack := outs[0].id));
      assert outs[0] in outs && Receive(t, outs) == Receive(u, outs[1..]);
      LaterIds(outs);
      hide Receive, Ascending;
      ReceiveAppends(u, outs[1..]);
      assert t.written[t.req.id] + [outs[0]] + outs[1..] == t.written[t.req.id] + outs;
    }
  }

  lemma LaterIds(outs: seq<Output>)
    requires outs != [] && Ascending(outs)
    ensures Ascending(outs[1..]) && forall o :: o in outs[1..] ==> o.id > outs[0].id
  {
    forall o | o in outs[1..]
      ensures o.id > outs[0].id
    {
      var k :| 0 <= k < |outs[1..]| && outs[1..][k] == o;
      assert outs[k + 1] == o;
    }
  }

  lemma JoinWritten(w: seq<Output>, outs: seq<Output>, st: seq<Output>, cut: bool)
    requires WrittenOk(w, st, cut) && Ascending(outs) && (forall o :: o in outs ==> o in st && o.id > LastId(w))
    requires !cut ==> |w| + |outs| <= |st| && outs == st[|w|..|w| + |outs|]
    ensures WrittenOk(w + outs, st, cut)
  {
    forall a, b | 0 <= a < b < |w + outs|
      ensures (w + outs)[a].id < (w + outs)[b].id
    {
      if b >= |w| {
        assert outs[b - |w|] in outs;
      }
    }
  }

  lemma ReceivedWritten<W>(s: System<W>, p: Response, n: nat)
    requires Inv(s) && !s.term.done && AnsweredAt(s, p) && !p.reset && n <= |p.output|
    ensures var x := s.term.req.id;
            x in s.term.written && WrittenOk(s.term.written[x] + p.output[..n], StreamOf(s.stream, x), x in s.cut)
    ensures Ascending(p.output[..n]) && forall o :: o in p.output[..n] ==> o.id > s.term.req.ack
  {
    hide Runs, Matching, SessionOk, ScriptOk, Lock, Sent;
    var x := s.term.req.id;
    var outs := p.output[..n];
    TermCurrent(s.term);
    assert SessionAt(s, x) && WrittenAt(s, x);
    var w := s.term.written[x];
    if x !in s.cut {
      UncutStream(s, x);
      AckCounts(w, StreamOf(s.stream, x));
      assert outs == StreamOf(s.stream, x)[|w|..|w| + n];
    }
    JoinWritten(w, outs, StreamOf(s.stream, x), x in s.cut);
  }

  lemma ReceivedTerm(t: Terminal, r: Terminal, net: set<Request>, outs: seq<Output>)
    requires TermOk(t) && NetOk(t, net) && forall o :: o in outs ==> o.id > t.req.ack
    requires r.req == t.req.(ack := r.req.ack) && r.script == t.script && r.done == t.done
    requires r.written == t.written[t.req.id := t.written[t.req.id] + outs]
    requires r.req.ack == LastId(t.written[t.req.id] + outs)
    ensures TermOk(r) && NetOk(r, net)
  {
    AckGrows(t.written[t.req.id], outs);
  }

  // A part of a waiting answer, written to the socket.
  lemma ReceiveHonest<W>(s: System<W>, p: Response, n: nat)
    requires Inv(s) && !s.term.done && AnsweredAt(s, p) && !p.reset && n <= |p.output|
    ensures var r := Receive(s.term, p.output[..n]);
            HonestOk(s.(term := r, replies := {})) && r.req == s.term.req.(ack := r.req.ack) && r.script == s.term.script && !r.done
  {
    hide Runs, Matching, SessionOk, SessionsOk, TermOk, NetOk, Lock, WrittenOk, ReplyOk, Receive;
    var x := s.term.req.id;
    var outs := p.output[..n];
    TermCurrent(s.term);
    ReceivedWritten(s, p, n);
    AckIsLast(s.term);
    ReceiveAppends(s.term, outs);
    var r := Receive(s.term, outs);
    var t := s.(term := r, replies := {});
    ReceivedTerm(s.term, r, s.net, outs);
    forall j | j in s.term.script
      ensures MatchingAt(t, j) && WrittenAt(t, j) && (j != x ==> Dead(t, j))
    {
      assert MatchingAt(s, j) && WrittenAt(s, j);
      assert j != x ==> Dead(s, j);
    }
    LockReceived(RowOf(s.db.rows, x), s.term.req, r.req, x in s.cut, x in s.purged, s.term.written[x], outs,
                 Dead(s, x), p, Runs(s.log, x), StreamOf(s.stream, x));
  }

  lemma AckIsLast(t: Terminal)
    requires TermOk(t)
    ensures t.req.ack == LastId(t.written[t.req.id])
  {
  }

  lemma AckGrows(w: seq<Output>, outs: seq<Output>)
    requires forall o :: o in outs ==> o.id > LastId(w)
    ensures LastId(w + outs) >= LastId(w)
  {
    if outs != [] {
      assert outs[|outs| - 1] in outs;
    }
  }

  lemma LockReceived(row: Option<Row>, req: Request, req': Request, cut: bool, purged: bool, w: seq<Output>, outs: seq<Output>,
                     dead: bool, p: Response, runs: seq<Run>, st: seq<Output>)
    requires Lock(row, req, cut, purged) && ReplyOk(p, req, row, dead, runs, st, cut) && !p.reset
    requires outs <= p.output && (row.None? && dead ==> purged)
    requires req' == req.(ack := LastId(w + outs)) && req.ack == LastId(w)
    ensures Lock(row, req', cut, purged)
  {
    forall o | o in outs
      ensures o in p.output
    {
    }
    AckGrows(w, outs);
    if outs != [] {
      assert outs[|outs| - 1] in outs;
    }
  }

  lemma ContinueTerm(t: Terminal, next: Next, net: set<Request>)
    requires TermOk(t) && !t.done && NetOk(t, net) && (next.Line? ==> |next.text| <= LINE_LIMIT)
    ensures TermOk(Continue(t, next)) && NetOk(Continue(t, next), net)
  {
  }

  lemma ContinueHonest<W>(s: System<W>, next: Next)
    requires HonestOk(s) && !s.term.done && s.replies == {} && (next.Line? ==> |next.text| <= LINE_LIMIT)
    requires var x := s.term.req.id;
             (x in s.db.rows ==> s.db.rows[x].sequence == s.term.req.sequence) && (x !in s.db.rows ==> x in s.purged)
    ensures HonestOk(s.(term := Continue(s.term, next)))
  {
    hide ReplyOk, Runs, TermOk, NetOk, WrittenOk;
    TermCurrent(s.term);
    var t := s.(term := Continue(s.term, next));
    ContinueTerm(s.term, next, s.net);
    forall j | j in s.term.script
      ensures MatchingAt(t, j) && WrittenAt(t, j) && (j != s.term.req.id ==> Dead(t, j))
    {
      assert MatchingAt(s, j) && WrittenAt(s, j);
      assert j != s.term.req.id ==> Dead(s, j);
    }
  }

  // An answer that is neither reset nor closed was given for the edge's own sequence.
  lemma OpenReply<W>(s: System<W>, p: Response)
    requires AnsweredAt(s, p) && !p.reset && !p.closed
    ensures var x := s.term.req.id;
            && (x in s.db.rows ==> s.db.rows[x].sequence == s.term.req.sequence) && (x !in s.db.rows ==> x in s.purged)
            && |Runs(s.log, x)| >= s.term.req.sequence
  {
  }

  lemma AcceptHonest<W>(s: System<W>, p: Response, next: Next, id: nat, broken: Option<nat>)
    requires Inv(s) && Enabled(s, Accept(p, next, id, broken))
    requires s.term.req.id in s.term.written && s.term.req.id in s.term.script
    ensures HonestOk(s.(term := Proceed(s.term, p, next, id, broken), replies := {}))
  {
    hide ReplyOk, Runs, TermOk, NetOk, WrittenOk, Lock, Matching, SessionsOk, Receive, Redial, Continue, Finish, MatchingAt, WrittenAt;
    assert AnsweredAt(s, p);
    if p.reset {
      if broken.Some? {
        FinishHonest(s);
      } else {
        ResetDead(s, p);
        RedialHonest(s, id);
      }
    } else {
      assert p.output[..|p.output|] == p.output;
      var n := if broken.Some? && broken.value <= |p.output| then broken.value else |p.output|;
      ReceiveHonest(s, p, n);
      var r := s.(term := Receive(s.term, p.output[..n]), replies := {});
      if (broken.Some? && broken.value <= |p.output|) || p.closed {
        FinishHonest(r);
      } else {
        OpenReply(s, p);
        ContinueHonest(r, next);
      }
    }
  }

  lemma ResetDead<W>(s: System<W>, p: Response)
    requires AnsweredAt(s, p) && p.reset
    ensures Dead(s, s.term.req.id)
  {
  }

  // ---------------------------------------------------------------- every run

  lemma InitialInv<W>(world: W, edge: nat, id: nat)
    ensures Inv(Initial(world, edge, id))
  {
    var s := Initial(world, edge, id);
    forall j: nat
      ensures SessionAt(s, j)
    {
    }
  }

  lemma StepInv<W>(g: Game<W>, s: System<W>, l: Label)
    requires Inv(s) && Enabled(s, l) && s.term.req.id in s.term.written && s.term.req.id in s.term.script
    ensures Inv(After(g, s, l))
  {
    hide HonestOk, Delivered, Proceed, SessionAt, Timely;
    match l
    case Deliver(req, env) =>
      DeliveredSessions(g, s, req, env);
      DeliverHonest(g, s, req, env);
    case Transmit =>
      TransmitHonest(s);
      SameSessions(s, After(g, s, l));
    case Accept(p, next, id, broken) =>
      AcceptHonest(s, p, next, id, broken);
      SameSessions(s, After(g, s, l));
    case Drop =>
      FinishHonest(s);
      SameSessions(s, After(g, s, l));
  }

  lemma DeliverHonest<W>(g: Game<W>, s: System<W>, req: Request, env: Env)
    requires Inv(s) && Timely(s, req, env) && (req in s.net || req.id !in s.term.script)
    ensures HonestOk(Delivered(g, s, req, env))
  {
    hide HonestOk, Delivered, SessionsOk, Dispatch;
    if Dispatch(g, env, s.db, req).Committed? {
      CommitHonest(g, s, req, env);
    } else {
      UncommittedHonest(g, s, req, env);
    }
  }

  lemma SameSessions<W>(s: System<W>, t: System<W>)
    requires SessionsOk(s)
    requires t == s.(net := t.net, term := t.term, replies := t.replies)
    ensures SessionsOk(t)
  {
    hide SessionOk;
    forall j: nat
      ensures SessionAt(t, j)
    {
      assert SessionAt(s, j);
    }
  }

  lemma {:induction false} RunInv<W>(g: Game<W>, s: System<W>, ls: seq<Label>, t: System<W>)
    requires Inv(s) && Reaches(g, s, ls, t)
    ensures Inv(t)
    decreases |ls|
  {
    hide Inv, Enabled, After;
    if ls != [] {
      StepInv(g, s, ls[0]);
      RunInv(g, After(g, s, ls[0]), ls[1..], t);
    }
  }
}
