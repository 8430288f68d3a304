// One terminal, its network and the core, against an arbitrary rest of the world:
// requests for other sessions arrive with any content, in any order, at any time.
// Requests of the terminal may be lost, delayed and delivered any number of times,
// answers may be lost, and any number of cores may take turns at the database.
module Protocol {
  import opened Wrappers
  import opened Terminalwire
  import opened CoreSession
  import opened CoreDispatch
  import opened RowFacts
  import opened Edge

  datatype System<+W> = System(
    db: Database<W>,
    clock: int,                      // transaction time of the latest dispatch
    term: Terminal,
    net: set<Request>,               // every request the terminal ever sent
    replies: set<Response>,          // answers to its current request
    log: seq<Run>,                   // commands executed, in commit order
    stream: map<nat, seq<Output>>,   // outputs committed per session
    cut: set<nat>,                   // sessions whose pending output was withdrawn
    purged: set<nat>,                // sessions whose tombstone was deleted
    departed: seq<nat>)              // departures announced

  datatype Label =
    | Deliver(req: Request, env: Env)
    | Transmit
    | Accept(reply: Response, next: Next, id: nat, broken: Option<nat>)
    | Drop

  function Initial<W>(world: W, edge: nat, id: nat): System<W> {
    System(Database(map[], world), 0, Dial(edge, id), {}, {}, [], map[], {}, {}, [])
  }

  predicate Expired(rows: map<nat, Row>, j: nat, now: int) {
    j in rows && rows[j].lastSeen < now - TOMBSTONE
  }

  // The two assumptions on time: transaction times do not decrease in lane order, and
  // no `open` outlives the tombstone of its session.
  predicate Timely<W>(s: System<W>, req: Request, env: Env) {
    env.now >= s.clock && (req.kind == Open ==> req.id !in s.purged && !Expired(s.db.rows, req.id, env.now))
  }

  predicate Enabled<W>(s: System<W>, l: Label) {
    match l
    case Deliver(req, env) => Timely(s, req, env) && (req in s.net || req.id !in s.term.script)
    case Transmit => true
    case Accept(reply, next, id, broken) =>
      && !s.term.done && reply in s.replies && reply.sequence == s.term.req.sequence
      && (next.Line? ==> |next.text| <= LINE_LIMIT)
      && id !in s.term.script && id !in s.db.rows && id !in s.purged
    case Drop => !s.term.done
  }

  function StreamOf(stream: map<nat, seq<Output>>, j: nat): seq<Output> {
    if j in stream then stream[j] else []
  }

  // The outputs of a committed checkpoint that are newer than ID n.
  function News(n: nat, c: Checkpoint): seq<Output> {
    if n <= c.nextOutput && c.nextOutput - n <= |c.output|
    then c.output[|c.output| - (c.nextOutput - n)..] else c.output
  }

  function Extend(stream: map<nat, seq<Output>>, rows: map<nat, Row>, stored: map<nat, Row>): map<nat, seq<Output>> {
    map j | j in stream.Keys + stored.Keys ::
      StreamOf(stream, j) +
      if j in stored then News(if j in rows then rows[j].saved.nextOutput else 0, stored[j].saved) else []
  }

  // The histories after a commit, from the rows as swept at `now`.
  function Commit<W>(s: System<W>, req: Request, now: int, r: Result<W>): System<W>
    requires r.Committed?
  {
    s.(clock := now, db := r.db,
       log := if r.run.Some? then s.log + [r.run.value] else s.log,
       stream := Extend(s.stream, Sweep(s.db.rows, now), r.db.rows),
       cut := s.cut + r.cut,
       purged := s.purged + (s.db.rows.Keys - r.db.rows.Keys),
       departed := if r.departed then s.departed + [req.id] else s.departed)
  }

  function Delivered<W>(g: Game<W>, s: System<W>, req: Request, env: Env): System<W> {
    var awaited := req == s.term.req && !s.term.done;
    var r := Dispatch(g, env, s.db, req);
    match r
    case Aborted => s.(clock := env.now)
    case Answered(reply) =>
      s.(clock := env.now, replies := if awaited then s.replies + {reply} else s.replies)
    case Committed(_, reply, _, _, _) =>
      Commit(s, req, env.now, r).(replies := if awaited then s.replies + {reply} else s.replies)
  }

  ghost function After<W>(g: Game<W>, s: System<W>, l: Label): System<W>
    requires s.term.req.id in s.term.written && s.term.req.id in s.term.script
  {
    match l
    case Deliver(req, env) => Delivered(g, s, req, env)
    case Transmit => s.(net := s.net + {s.term.req})
    case Accept(reply, next, id, broken) => s.(term := Proceed(s.term, reply, next, id, broken), replies := {})
    case Drop => s.(term := Finish(s.term), replies := {})
  }

  // `t` is reached from `s` by the steps `ls`, in order.
  ghost predicate Reaches<W>(g: Game<W>, s: System<W>, ls: seq<Label>, t: System<W>)
    decreases |ls|
  {
    if ls == [] then s == t
    else
      && s.term.req.id in s.term.written && s.term.req.id in s.term.script
      && Enabled(s, ls[0]) && Reaches(g, After(g, s, ls[0]), ls[1..], t)
  }

  // The commands session j executed, in order.
  function Runs(log: seq<Run>, j: nat): seq<Run> {
    if log == [] then []
    else Runs(log[..|log| - 1], j) + if log[|log| - 1].id == j then [log[|log| - 1]] else []
  }

  function RowOf(rows: map<nat, Row>, j: nat): Option<Row> {
    if j in rows then Some(rows[j]) else None
  }

  // ---------------------------------------------------------------- every session

  ghost predicate Ascending(outs: seq<Output>) {
    forall a, b :: 0 <= a < b < |outs| ==> outs[a].id < outs[b].id
  }

  ghost predicate OutboxOk(c: Checkpoint, st: seq<Output>, cut: bool) {
    && (forall o :: o in c.output ==> o in st)
    && (forall i :: 0 <= i < |st| ==> st[i].id <= c.nextOutput)
    && (!cut ==> |c.output| <= |st| == c.nextOutput && c.output == st[|st| - |c.output|..])
  }

  ghost predicate RunsOk(runs: seq<Run>) {
    forall k :: 0 <= k < |runs| ==>
      runs[k].sequence == k + 1 && (runs[k].kind == Open ==> k == 0) && runs[k].kind != Close
  }

  // What holds of one session in every reachable state: commands ran in sequence, each
  // once; an open session ran them all; its outbox is the end of its stream.
  ghost predicate SessionOk(row: Option<Row>, runs: seq<Run>, st: seq<Output>, cut: bool, purged: bool, departed: bool) {
    && RunsOk(runs) && Ascending(st)
    && (!cut ==> forall i :: 0 <= i < |st| ==> st[i].id == i + 1)
    && (row.Some? ==>
          && !purged && RowOk(row.value) && |runs| <= row.value.sequence
          && (!row.value.closed ==> |runs| == row.value.sequence && !cut && !departed)
          && OutboxOk(row.value.saved, st, cut))
    && (row.None? && !purged ==> runs == [] && st == [] && !cut && !departed)
  }

  ghost predicate SessionAt<W>(s: System<W>, j: nat) {
    SessionOk(RowOf(s.db.rows, j), Runs(s.log, j), StreamOf(s.stream, j), j in s.cut, j in s.purged, j in s.departed)
  }

  ghost predicate SessionsOk<W>(s: System<W>) {
    && (forall j: nat :: SessionAt(s, j))
    && (forall a, b :: 0 <= a < b < |s.departed| ==> s.departed[a] != s.departed[b])
  }

  lemma NewsFacts(c: Checkpoint, d: Checkpoint)
    requires Shape(c) && Grows(c, d)
    ensures var late := News(c.nextOutput, d);
            && |late| == d.nextOutput - c.nextOutput && d.output == c.output + late
            && forall i :: 0 <= i < |late| ==> late[i].id == c.nextOutput + 1 + i
  {
    var late := News(c.nextOutput, d);
    assert late == d.output[|c.output|..];
    assert forall i :: 0 <= i < |late| ==> late[i] == d.output[|c.output| + i];
  }

  // New outputs continue the stream; they have the IDs after nextOutput.
  lemma JoinStream(st: seq<Output>, late: seq<Output>, n: nat, cut: bool)
    requires Ascending(st) && (forall i :: 0 <= i < |st| ==> st[i].id <= n)
    requires forall i :: 0 <= i < |late| ==> late[i].id == n + 1 + i
    requires !cut ==> |st| == n && forall i :: 0 <= i < |st| ==> st[i].id == i + 1
    ensures var su := st + late;
            && Ascending(su) && (forall i :: 0 <= i < |su| ==> su[i].id <= n + |late|)
            && (!cut ==> |su| == n + |late| && forall i :: 0 <= i < |su| ==> su[i].id == i + 1)
  {
  }

  lemma GrownStream(c: Checkpoint, d: Checkpoint, st: seq<Output>, cut: bool)
    requires Shape(c) && Grows(c, d) && OutboxOk(c, st, cut) && Ascending(st)
    requires !cut ==> forall i :: 0 <= i < |st| ==> st[i].id == i + 1
    ensures var su := st + News(c.nextOutput, d);
            && OutboxOk(d, su, cut) && Ascending(su)
            && (!cut ==> forall i :: 0 <= i < |su| ==> su[i].id == i + 1)
  {
    hide Shape, Grows, News;
    var late := News(c.nextOutput, d);
    NewsFacts(c, d);
    JoinStream(st, late, c.nextOutput, cut);
    var su := st + late;
    if !cut {
      assert su[|su| - |d.output|..] == st[|st| - |c.output|..] + late;
    }
  }

  lemma CutStream(c: Checkpoint, d: Checkpoint, st: seq<Output>, cut: bool)
    requires CutOff(c, d) && OutboxOk(c, st, cut) && Ascending(st)
    ensures var su := st + News(c.nextOutput, d); OutboxOk(d, su, true) && Ascending(su)
  {
    assert News(c.nextOutput, d) == d.output;
  }

  lemma TrimmedOutbox(c: Checkpoint, ack: nat, closed: bool, st: seq<Output>, cut: bool)
    requires Shape(c) && OutboxOk(c, st, cut)
    ensures OutboxOk(c.(output := Trim(c.output, ack), closed := closed), st, cut)
    ensures Shape(c.(output := Trim(c.output, ack), closed := closed))
  {
    TrimKeeps(c, ack);
    var t := Trim(c.output, ack);
    if !cut {
      assert t == st[|st| - |t|..];
    }
  }

  lemma KeptSession(r: Row, t: Row, runs: seq<Run>, st: seq<Output>, cut: bool, departed: bool)
    requires SessionOk(Some(r), runs, st, cut, false, departed) && KeptRow(r, t)
    ensures SessionOk(Some(t), runs, st + News(r.saved.nextOutput, t.saved), cut, false, departed)
  {
    GrownStream(r.saved, t.saved, st, cut);
  }

  lemma CutSession(r: Row, t: Row, runs: seq<Run>, st: seq<Output>, cut: bool, departed: bool)
    requires SessionOk(Some(r), runs, st, cut, false, departed) && CutRow(r, t)
    ensures SessionOk(Some(t), runs, st + News(r.saved.nextOutput, t.saved), true, false, departed)
  {
    CutStream(r.saved, t.saved, st, cut);
  }

  lemma RequesterRuns(req: Request, now: int, r: Row, t: Row, run: Option<Run>, newly: bool, runs: seq<Run>)
    requires RequesterRow(req, now, r, t, run, newly) && RunsOk(runs) && |runs| <= r.sequence
    requires !r.closed ==> |runs| == r.sequence
    requires r.closed == r.saved.closed
    ensures var more := if run.Some? then runs + [run.value] else runs;
            && RunsOk(more) && |more| <= t.sequence
            && (!t.closed ==> |more| == t.sequence && !newly && !r.closed)
  {
    hide Shape;
  }

  lemma RequesterOutbox(req: Request, now: int, r: Row, t: Row, run: Option<Run>, newly: bool, st: seq<Output>, cut: bool)
    requires RequesterRow(req, now, r, t, run, newly) && RowOk(r) && OutboxOk(r.saved, st, cut) && Ascending(st)
    requires !cut ==> forall i :: 0 <= i < |st| ==> st[i].id == i + 1
    ensures var su := st + News(r.saved.nextOutput, t.saved);
            && OutboxOk(t.saved, su, cut || newly) && Ascending(su)
            && (!(cut || newly) ==> forall i :: 0 <= i < |su| ==> su[i].id == i + 1)
  {
    hide Shape, Grows, News, Trim, CutOff;
    if newly {
      CutStream(r.saved, t.saved, st, cut);
    } else {
      var closed := r.closed || req.kind == Close;
      TrimmedOutbox(r.saved, req.ack, closed, st, cut);
      hide OutboxOk, Ascending;
      GrownStream(r.saved.(output := Trim(r.saved.output, req.ack), closed := closed), t.saved, st, cut);
    }
  }

  // The requester: at most one more command, exactly the one its sequence asks for.
  lemma RequesterSession(req: Request, now: int, r: Row, t: Row, run: Option<Run>, newly: bool, leaves: bool,
                         runs: seq<Run>, st: seq<Output>, cut: bool, departed: bool)
    requires SessionOk(Some(r), runs, st, cut, false, departed)
    requires RequesterRow(req, now, r, t, run, newly)
    requires leaves ==> !r.closed && t.closed
    ensures var more := if run.Some? then runs + [run.value] else runs;
            SessionOk(Some(t), more, st + News(r.saved.nextOutput, t.saved), cut || newly, false, departed || leaves)
  {
    StoredShape(req, now, r, t, run, newly);
    RequesterRuns(req, now, r, t, run, newly, runs);
    RequesterOutbox(req, now, r, t, run, newly, st, cut);
    hide RequesterRow, RunsOk, RowOk, OutboxOk, Ascending, News;
  }

  lemma RunsAppend(log: seq<Run>, run: Run, j: nat)
    ensures Runs(log + [run], j) == if run.id == j then Runs(log, j) + [run] else Runs(log, j)
  {
    assert (log + [run])[..|log|] == log;
  }

  lemma SweptSession(r: Row, runs: seq<Run>, st: seq<Output>, cut: bool, departed: bool)
    requires SessionOk(Some(r), runs, st, cut, false, departed)
    ensures SessionOk(Some(r.(character := None)), runs, st, cut, false, departed)
  {
  }

  lemma SweptRows<W>(s: System<W>, now: int)
    requires SessionsOk(s)
    ensures RowsOk(s.db.rows) && RowsOk(Sweep(s.db.rows, now))
  {
    hide Shape;
    forall j | j in s.db.rows
      ensures RowOk(s.db.rows[j])
    {
      assert SessionAt(s, j);
    }
  }

  lemma BlankSession(req: Request, runs: seq<Run>, st: seq<Output>, cut: bool, departed: bool)
    requires SessionOk(None, runs, st, cut, false, departed)
    ensures SessionOk(Some(Row(req.edge, 0, None, BLANK, false, 0)), runs, st, cut, false, departed)
  {
  }

  // The session of the requester before the commit, its row made blank if it is new.
  lemma StartSession<W>(s: System<W>, req: Request, now: int)
    requires SessionsOk(s)
    requires req.id !in Sweep(s.db.rows, now) ==> req.id !in s.purged && !Expired(s.db.rows, req.id, now)
    ensures SessionOk(Some(Start(Sweep(s.db.rows, now), req)), Runs(s.log, req.id), StreamOf(s.stream, req.id),
                      req.id in s.cut, false, req.id in s.departed)
  {
    assert SessionAt(s, req.id);
    hide SessionOk, Runs, StreamOf;
    var runs, st := Runs(s.log, req.id), StreamOf(s.stream, req.id);
    NotPurged(RowOf(s.db.rows, req.id), runs, st, req.id in s.cut, req.id in s.purged, req.id in s.departed);
    if req.id in Sweep(s.db.rows, now) {
      SweptSession(s.db.rows[req.id], runs, st, req.id in s.cut, req.id in s.departed);
    } else {
      BlankSession(req, runs, st, req.id in s.cut, req.id in s.departed);
    }
  }

  lemma CommittedRequester<W>(s: System<W>, req: Request, env: Env, r: Result<W>)
    requires SessionsOk(s) && r.Committed? && Step(env, Sweep(s.db.rows, env.now), req, r)
    requires req.id !in Sweep(s.db.rows, env.now) ==> req.id !in s.purged && !Expired(s.db.rows, req.id, env.now)
    ensures SessionAt(Commit(s, req, env.now, r), req.id)
    ensures r.departed ==> req.id !in s.departed
  {
    hide SessionOk, RequesterRow, Start, Unique, CutRow, KeptRow, News, Runs, Sweep;
    var start := Start(Sweep(s.db.rows, env.now), req);
    StartSession(s, req, env.now);
    var runs, st := Runs(s.log, req.id), StreamOf(s.stream, req.id);
    DepartedOnce(start, runs, st, req.id in s.cut, req.id in s.departed);
    RequesterSession(req, env.now, start, r.db.rows[req.id], r.run, req.id in r.cut, r.departed,
                     runs, st, req.id in s.cut, req.id in s.departed);
    StartNext(Sweep(s.db.rows, env.now), req);
    RunOfRequester(req, env.now, start, r.db.rows[req.id], r.run, req.id in r.cut);
    if r.run.Some? {
      RunsAppend(s.log, r.run.value, req.id);
    }
    assert SessionAt(s, req.id);
    RequesterUnpurged(s, req, env.now);
  }

  lemma RequesterUnpurged<W>(s: System<W>, req: Request, now: int)
    requires SessionsOk(s)
    requires req.id !in Sweep(s.db.rows, now) ==> req.id !in s.purged && !Expired(s.db.rows, req.id, now)
    ensures req.id !in s.purged
  {
    assert SessionAt(s, req.id);
  }

  lemma DepartedOnce(r: Row, runs: seq<Run>, st: seq<Output>, cut: bool, departed: bool)
    requires SessionOk(Some(r), runs, st, cut, false, departed)
    ensures departed ==> r.closed
  {
  }

  lemma RunOfRequester(req: Request, now: int, r: Row, t: Row, run: Option<Run>, cut: bool)
    requires RequesterRow(req, now, r, t, run, cut)
    ensures run.Some? ==> run.value.id == req.id
  {
  }

  lemma StartNext(rows: map<nat, Row>, req: Request)
    ensures Start(rows, req).saved.nextOutput == if req.id in rows then rows[req.id].saved.nextOutput else 0
  {
  }

  // What a commit makes of the histories of a bystander.
  lemma CommittedAt<W>(s: System<W>, req: Request, env: Env, r: Result<W>, j: nat)
    requires r.Committed? && Step(env, Sweep(s.db.rows, env.now), req, r) && j != req.id
    ensures var t := Commit(s, req, env.now, r);
            var rows := Sweep(s.db.rows, env.now);
            && RowOf(t.db.rows, j) == (if j in rows && j in r.db.rows then Some(r.db.rows[j]) else None)
            && (j in rows ==> j in r.db.rows)
            && StreamOf(t.stream, j) == StreamOf(s.stream, j) +
                 (if j in rows && j in r.db.rows then News(rows[j].saved.nextOutput, r.db.rows[j].saved) else [])
            && Runs(t.log, j) == Runs(s.log, j)
            && (j in t.cut <==> j in s.cut || j in r.cut) && (j in r.cut ==> j in rows)
            && (j in t.purged <==> j in s.purged || (j in s.db.rows && j !in rows))
            && (j in t.departed <==> j in s.departed)
  {
    hide RequesterRow, Start, Unique, CutRow, KeptRow, News, Runs, Sweep;
    RunOfRequester(req, env.now, Start(Sweep(s.db.rows, env.now), req), r.db.rows[req.id], r.run, req.id in r.cut);
    if r.run.Some? {
      RunsAppend(s.log, r.run.value, j);
    }
    assert StreamOf(s.stream, j) + [] == StreamOf(s.stream, j);
  }

  lemma CommittedBystander<W>(s: System<W>, req: Request, env: Env, r: Result<W>, j: nat)
    requires SessionsOk(s) && r.Committed? && Step(env, Sweep(s.db.rows, env.now), req, r) && j != req.id
    ensures SessionAt(Commit(s, req, env.now, r), j)
  {
    CommittedAt(s, req, env, r, j);
    var rows := Sweep(s.db.rows, env.now);
    var runs, st := Runs(s.log, j), StreamOf(s.stream, j);
    assert SessionAt(s, j);
    hide SessionOk, RequesterRow, Start, Unique, CutRow, KeptRow, News, Runs, Commit, StreamOf;
    NotPurged(RowOf(s.db.rows, j), runs, st, j in s.cut, j in s.purged, j in s.departed);
    if j in rows {
      SweptSession(s.db.rows[j], runs, st, j in s.cut, j in s.departed);
      if j in r.cut {
        CutSession(rows[j], r.db.rows[j], runs, st, j in s.cut, j in s.departed);
      } else {
        KeptSession(rows[j], r.db.rows[j], runs, st, j in s.cut, j in s.departed);
      }
    } else {
      assert st + [] == st;
      GoneSession(RowOf(s.db.rows, j), runs, st, j in s.cut, j in s.purged, j in s.departed);
    }
  }

  lemma NotPurged(row: Option<Row>, runs: seq<Run>, st: seq<Output>, cut: bool, purged: bool, departed: bool)
    requires SessionOk(row, runs, st, cut, purged, departed)
    ensures row.Some? ==> !purged
  {
  }

  lemma GoneSession(row: Option<Row>, runs: seq<Run>, st: seq<Output>, cut: bool, purged: bool, departed: bool)
    requires SessionOk(row, runs, st, cut, purged, departed)
    ensures row.Some? || purged ==> SessionOk(None, runs, st, cut, true, departed)
  {
  }

  lemma DeliveredSessions<W>(g: Game<W>, s: System<W>, req: Request, env: Env)
    requires SessionsOk(s) && Timely(s, req, env)
    ensures SessionsOk(Delivered(g, s, req, env))
  {
    hide Dispatch, SessionOk, Extend, Runs, Step;
    var t := Delivered(g, s, req, env);
    var r := Dispatch(g, env, s.db, req);
    if r.Committed? {
      SweptRows(s, env.now);
      DispatchStep(g, env, s.db, req);
      CommittedRequester(s, req, env, r);
      forall j: nat
        ensures SessionAt(t, j)
      {
        if j != req.id {
          CommittedBystander(s, req, env, r, j);
        }
        assert SessionAt(Commit(s, req, env.now, r), j);
      }
    } else {
      forall j: nat
        ensures SessionAt(t, j)
      {
        assert SessionAt(s, j);
      }
    }
  }
}
