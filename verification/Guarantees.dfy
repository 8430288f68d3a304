// What the protocol guarantees, over every run from an empty table.
module Guarantees {
  import opened Wrappers
  import opened Terminalwire
  import opened CoreSession
  import opened CoreDispatch
  import opened DispatchFacts
  import opened RowFacts
  import opened Edge
  import opened Protocol
  import opened Honest

  // No session executes a sequence twice, nor two sequences out of order.
  ghost predicate AtMostOnce(log: seq<Run>) {
    forall a, b :: 0 <= a < b < |log| && log[a].id == log[b].id ==> log[a].sequence < log[b].sequence
  }

  lemma {:induction false} RunsOfOthers(log: seq<Run>, j: nat)
    ensures forall k :: 0 <= k < |Runs(log, j)| ==> Runs(log, j)[k].id == j && Runs(log, j)[k] in log
    ensures forall a :: 0 <= a < |log| && log[a].id == j ==> log[a] in Runs(log, j)
  {
    if log != [] {
      RunsOfOthers(log[..|log| - 1], j);
    }
  }

  lemma {:induction false} SequencedOnce(log: seq<Run>)
    requires forall j: nat :: RunsOk(Runs(log, j))
    ensures AtMostOnce(log)
  {
    if log != [] {
      var n := |log| - 1;
      var before, last := log[..n], log[n];
      forall j: nat
        ensures RunsOk(Runs(before, j))
      {
        RunsAppend(before, last, j);
        assert log == before + [last];
        assert RunsOk(Runs(log, j));
        assert forall k :: 0 <= k < |Runs(before, j)| ==> Runs(before, j)[k] == Runs(log, j)[k];
      }
      SequencedOnce(before);
      RunsOfOthers(before, last.id);
      RunsAppend(before, last, last.id);
      assert log == before + [last];
      assert RunsOk(Runs(log, last.id));
      assert Runs(log, last.id) == Runs(before, last.id) + [last];
      forall a | 0 <= a < n && log[a].id == last.id
        ensures log[a].sequence < last.sequence
      {
        assert before[a] == log[a];
        var k :| 0 <= k < |Runs(before, last.id)| && Runs(before, last.id)[k] == log[a];
        assert Runs(log, last.id)[k] == log[a];
        assert Runs(log, last.id)[|Runs(before, last.id)|] == last;
      }
    }
  }

  // Exactly once: every session runs the sequences 1, 2, 3, ... each once and in order;
  // a session of the terminal runs the commands of its edge, in the edge's order; and
  // while it is open it has run all of them, up to the sequence the core is at.
  lemma ExactlyOnce<W>(g: Game<W>, world: W, edge: nat, id: nat, ls: seq<Label>, t: System<W>)
    requires Reaches(g, Initial(world, edge, id), ls, t)
    ensures AtMostOnce(t.log)
    ensures forall j :: j in t.term.script ==> Matching(Runs(t.log, j), t.term.script[j])
    ensures forall j :: j in t.db.rows && !t.db.rows[j].closed ==> |Runs(t.log, j)| == t.db.rows[j].sequence
  {
    InitialInv(world, edge, id);
    RunInv(g, Initial(world, edge, id), ls, t);
    forall j: nat
      ensures RunsOk(Runs(t.log, j))
      ensures j in t.db.rows && !t.db.rows[j].closed ==> |Runs(t.log, j)| == t.db.rows[j].sequence
    {
      assert SessionAt(t, j);
    }
    SequencedOnce(t.log);
    forall j | j in t.term.script
      ensures Matching(Runs(t.log, j), t.term.script[j])
    {
      assert MatchingAt(t, j);
    }
  }

  // An answer the edge may accept, neither closed nor reset, proves that its request
  // was executed: exactly that command, as the last of its session so far.
  lemma AnsweredMeansExecuted<W>(g: Game<W>, world: W, edge: nat, id: nat, ls: seq<Label>, t: System<W>, p: Response)
    requires Reaches(g, Initial(world, edge, id), ls, t)
    requires !t.term.done && p in t.replies && !p.reset && !p.closed
    ensures var q := t.term.req;
            var runs := Runs(t.log, q.id);
            |runs| == q.sequence && q.sequence >= 1
            && runs[q.sequence - 1].sequence == q.sequence
            && runs[q.sequence - 1].kind == q.kind && runs[q.sequence - 1].line == q.line
  {
    InitialInv(world, edge, id);
    RunInv(g, Initial(world, edge, id), ls, t);
    AnsweredRan(t, p);
  }

  lemma AnsweredRan<W>(t: System<W>, p: Response)
    requires Inv(t) && !t.term.done && p in t.replies && !p.reset && !p.closed
    ensures var q := t.term.req;
            var runs := Runs(t.log, q.id);
            |runs| == q.sequence && q.sequence >= 1
            && runs[q.sequence - 1].sequence == q.sequence
            && runs[q.sequence - 1].kind == q.kind && runs[q.sequence - 1].line == q.line
  {
    hide Runs, Lock, NetOk, ScriptOk, SessionOk;
    var q := t.term.req;
    TermCurrent(t.term);
    OpensFirst(t.term);
    assert AnsweredAt(t, p) && SessionAt(t, q.id) && MatchingAt(t, q.id);
    OpenReply(t, p);
    RunsInSequence(RowOf(t.db.rows, q.id), Runs(t.log, q.id), StreamOf(t.stream, q.id),
                   q.id in t.cut, q.id in t.purged, q.id in t.departed);
  }

  lemma RunsInSequence(row: Option<Row>, runs: seq<Run>, st: seq<Output>, cut: bool, purged: bool, departed: bool)
    requires SessionOk(row, runs, st, cut, purged, departed)
    ensures RunsOk(runs)
  {
  }

  // Gap-free delivery: of a session with nothing withdrawn the socket has seen a
  // prefix of the committed stream, and the outbox holds all the rest of it. After a
  // withdrawal it has still seen outputs of the stream in order, none twice.
  lemma GapFreeDelivery<W>(g: Game<W>, world: W, edge: nat, id: nat, ls: seq<Label>, t: System<W>, j: nat)
    requires Reaches(g, Initial(world, edge, id), ls, t)
    ensures j in t.term.written ==>
              var w, st := t.term.written[j], StreamOf(t.stream, j);
              && Ascending(w) && (forall o :: o in w ==> o in st)
              && (j !in t.cut ==> w <= st && forall i :: 0 <= i < |st| ==> st[i].id == i + 1)
    ensures var st := StreamOf(t.stream, t.term.req.id);
            var x := t.term.req.id;
            x !in t.cut && x in t.db.rows ==>
              var out := t.db.rows[x].saved.output;
              |st| - |out| <= t.term.req.ack <= |st| && |out| <= |st| && out == st[|st| - |out|..]
  {
    InitialInv(world, edge, id);
    RunInv(g, Initial(world, edge, id), ls, t);
    hide Reaches, TermOk, NetOk, ScriptOk, Matching, ReplyOk;
    assert j in t.term.written ==> WrittenAt(t, j);
    assert SessionAt(t, j) && SessionAt(t, t.term.req.id);
  }

  // The outbox of every session is the contiguous range of IDs ending at nextOutput
  // and within the limit, in every reachable state.
  lemma OutboxShape<W>(g: Game<W>, world: W, edge: nat, id: nat, ls: seq<Label>, t: System<W>, j: nat)
    requires Reaches(g, Initial(world, edge, id), ls, t) && j in t.db.rows
    ensures var c := t.db.rows[j].saved;
            && Size(c.output) <= OUTBOX_LIMIT && |c.output| <= c.nextOutput
            && forall i :: 0 <= i < |c.output| ==> c.output[i].id == c.nextOutput - |c.output| + 1 + i
  {
    InitialInv(world, edge, id);
    RunInv(g, Initial(world, edge, id), ls, t);
    assert SessionAt(t, j);
  }

  // An honest edge never meets a sequence gap, an acknowledgement ahead of the core, a
  // foreign edge or a session already open; and every answer it waits for is in step.
  lemma HonestInStep<W>(g: Game<W>, world: W, edge: nat, id: nat, ls: seq<Label>, t: System<W>, env: Env)
    requires Reaches(g, Initial(world, edge, id), ls, t) && Timely(t, t.term.req, env)
    ensures var q := t.term.req;
            var rows := Sweep(t.db.rows, env.now);
            && WellFormed(q) && (q.kind == Open ==> q.sequence == 1)
            && (q.id in rows ==> q.sequence >= rows[q.id].sequence)
            && (q.id in rows || q.kind == Open ==> Acceptable(LoadRow(Start(rows, q)), q))
    ensures !t.term.done ==> forall p :: p in t.replies && !p.reset ==> p.sequence == t.term.req.sequence
  {
    hide Timely, Acceptable, Reaches;
    InitialInv(world, edge, id);
    RunInv(g, Initial(world, edge, id), ls, t);
    InStep(t, env);
    if !t.term.done {
      RepliesInStep(t);
    }
  }

  lemma RepliesInStep<W>(t: System<W>)
    requires Inv(t) && !t.term.done
    ensures forall p :: p in t.replies && !p.reset ==> p.sequence == t.term.req.sequence
  {
    hide SessionsOk, TermOk, NetOk, Lock;
    forall p | p in t.replies && !p.reset
      ensures p.sequence == t.term.req.sequence
    {
      assert AnsweredAt(t, p);
    }
  }

  lemma InStep<W>(t: System<W>, env: Env)
    requires Inv(t) && Timely(t, t.term.req, env)
    ensures var q := t.term.req;
            var rows := Sweep(t.db.rows, env.now);
            && WellFormed(q) && (q.kind == Open ==> q.sequence == 1)
            && (q.id in rows ==> q.sequence >= rows[q.id].sequence)
            && (q.id in rows || q.kind == Open ==> Acceptable(LoadRow(Start(rows, q)), q))
  {
    hide SessionsOk, MatchingAt, WrittenAt, AnsweredAt, NetOk, ScriptOk, Sent;
    CurrentLines(t.term);
  }

  lemma CurrentLines(t: Terminal)
    requires TermOk(t)
    ensures t.req.sequence >= 1 && |t.req.line| <= LINE_LIMIT && (t.req.kind == Open ==> t.req.sequence == 1)
  {
  }

  // ---------------------------------------------------------------- closed is final

  // The session is over: its row is closed, or its tombstone is gone.
  ghost predicate Over<W>(s: System<W>, j: nat) {
    j in s.purged || (j in s.db.rows && s.db.rows[j].closed)
  }

  lemma ClosedRequester(req: Request, now: int, r: Row, u: Row, run: Option<Run>, newly: bool)
    requires RequesterRow(req, now, r, u, run, newly) && r.closed
    ensures u.closed && run.None?
  {
  }

  lemma ClosedBystander(r: Row, u: Row, cut: bool)
    requires (if cut then CutRow(r, u) else KeptRow(r, u)) && r.closed == r.saved.closed
    ensures r.closed ==> u.closed
  {
  }

  lemma OverCommit<W>(s: System<W>, req: Request, env: Env, r: Result<W>, j: nat)
    requires SessionsOk(s) && r.Committed? && Step(env, Sweep(s.db.rows, env.now), req, r)
    requires req.id !in Sweep(s.db.rows, env.now) ==> req.id !in s.purged && !Expired(s.db.rows, req.id, env.now)
    requires Over(s, j)
    ensures Over(Commit(s, req, env.now, r), j)
    ensures Runs(Commit(s, req, env.now, r).log, j) == Runs(s.log, j)
    ensures r.departed ==> j != req.id
  {
    hide SessionOk, RequesterRow, KeptRow, CutRow, Unique, Extend, Runs;
    var rows := Sweep(s.db.rows, env.now);
    assert SessionAt(s, j);
    NotPurged(RowOf(s.db.rows, j), Runs(s.log, j), StreamOf(s.stream, j), j in s.cut, j in s.purged, j in s.departed);
    RunOfRequester(req, env.now, Start(rows, req), r.db.rows[req.id], r.run, req.id in r.cut);
    RunsGrow(s, req, env.now, r, j);
    SweptRows(s, env.now);
    if j in rows {
      if j == req.id {
        ClosedRequester(req, env.now, Start(rows, req), r.db.rows[j], r.run, j in r.cut);
      } else {
        ClosedBystander(rows[j], r.db.rows[j], j in r.cut);
      }
    }
  }

  lemma OverStep<W>(g: Game<W>, s: System<W>, l: Label, j: nat)
    requires Inv(s) && Enabled(s, l) && s.term.req.id in s.term.written && s.term.req.id in s.term.script && Over(s, j)
    ensures var t := After(g, s, l); Over(t, j) && Runs(t.log, j) == Runs(s.log, j)
  {
    hide Dispatch, SessionsOk, HonestOk, Proceed, Runs, Extend, Sweep;
    if l.Deliver? && Dispatch(g, l.env, s.db, l.req).Committed? {
      SweptRows(s, l.env.now);
      DispatchStep(g, l.env, s.db, l.req);
      CommitsCurrent(g, s, l.req, l.env);
      OverCommit(s, l.req, l.env, Dispatch(g, l.env, s.db, l.req), j);
    }
  }

  // Over is final: a closed session never reopens and runs no further command.
  lemma {:induction false} ClosedIsFinal<W>(g: Game<W>, s: System<W>, ls: seq<Label>, t: System<W>, j: nat)
    requires Inv(s) && Reaches(g, s, ls, t) && Over(s, j)
    ensures Over(t, j) && Runs(t.log, j) == Runs(s.log, j)
    decreases |ls|
  {
    hide Inv, Enabled, After, Over, Runs;
    if ls != [] {
      StepInv(g, s, ls[0]);
      OverStep(g, s, ls[0], j);
      ClosedIsFinal(g, After(g, s, ls[0]), ls[1..], t, j);
    }
  }

  // Departures of one session are announced at most once.
  ghost predicate Distinct(ids: seq<nat>) {
    forall a, b :: 0 <= a < b < |ids| ==> ids[a] != ids[b]
  }

  lemma DepartsOnce<W>(g: Game<W>, world: W, edge: nat, id: nat, ls: seq<Label>, t: System<W>)
    requires Reaches(g, Initial(world, edge, id), ls, t)
    ensures Distinct(t.departed)
    ensures forall j :: j in t.departed ==> Over(t, j)
  {
    InitialInv(world, edge, id);
    RunInv(g, Initial(world, edge, id), ls, t);
    forall j | j in t.departed
      ensures Over(t, j)
    {
      assert SessionAt(t, j);
    }
  }
}
