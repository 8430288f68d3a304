// The edge loop of internal/telnet/edge.go: one request at a time, retried as it
// is until the core answers it in sequence.
module Edge {
  import opened Wrappers
  import opened Terminalwire

  datatype Command = Command(kind: Kind, line: string)

  // A terminal as its edge serves it. `written` is the core output written to the
  // socket and `script` the commands sent, both per session ID. The deferred close
  // of `serve` reuses the last sequence, so it adds nothing to the script.
  datatype Terminal = Terminal(
    req: Request,
    written: map<nat, seq<Output>>,
    script: map<nat, seq<Command>>,
    done: bool)

  // What the edge does after an answer: send a line, poll, or leave.
  datatype Next = Line(text: string) | Tick | Idle | Stop

  function Dial(edge: nat, id: nat): Terminal {
    Terminal(Request(edge, id, 1, 0, Open, ""), map[id := []], map[id := [Command(Open, "")]], false)
  }

  // Outputs already acknowledged are skipped; every other one is written once.
  function Receive(t: Terminal, outs: seq<Output>): Terminal
    requires t.req.id in t.written
    decreases |outs|
  {
    if outs == [] then t
    else if outs[0].id <= t.req.ack then Receive(t, outs[1..])
    else
      Receive(t.(written := t.written[t.req.id := t.written[t.req.id] + [outs[0]]],
                 req := t.req.(ack := outs[0].id)), outs[1..])
  }

  // The deferred close: the pending sequence with kind close.
  function Finish(t: Terminal): Terminal {
    t.(req := t.req.(kind := Close, line := ""), done := true)
  }

  function NextCommand(next: Next): Command {
    match next
    case Line(text) => Command(Input, text)
    case Tick => Command(Poll, "")
    case Idle => Command(Close, "")
    case Stop => Command(Close, "")
  }

  function Continue(t: Terminal, next: Next): Terminal
    requires t.req.id in t.script
  {
    var c := NextCommand(next);
    t.(req := t.req.(sequence := t.req.sequence + 1, kind := c.kind, line := c.line),
       script := t.script[t.req.id := t.script[t.req.id] + [c]],
       done := next == Stop)
  }

  // After a reset the edge signs in again as a new session.
  function Redial(t: Terminal, id: nat): Terminal {
    t.(req := Request(t.req.edge, id, 1, 0, Open, ""),
       written := t.written[id := []],
       script := t.script[id := [Command(Open, "")]])
  }

  // One turn of the loop on an answer. `broken` says after how many outputs the
  // socket failed, if it did.
  function Proceed(t: Terminal, reply: Response, next: Next, id: nat, broken: Option<nat>): Terminal
    requires t.req.id in t.written && t.req.id in t.script
  {
    if reply.reset then
      if broken.Some? then Finish(t) else Redial(t, id)
    else if broken.Some? && broken.value <= |reply.output| then
      Finish(Receive(t, reply.output[..broken.value]))
    else
      var r := Receive(t, reply.output);
      assert r.req.id == t.req.id && r.script == t.script by { ReceiveKeeps(t, reply.output); }
      if reply.closed then Finish(r) else Continue(r, next)
  }

  lemma {:induction false} ReceiveKeeps(t: Terminal, outs: seq<Output>)
    requires t.req.id in t.written
    ensures var r := Receive(t, outs);
            && r.req == t.req.(ack := r.req.ack) && r.script == t.script && r.done == t.done
            && r.written.Keys == t.written.Keys
            && (forall j :: j in t.written && j != t.req.id ==> r.written[j] == t.written[j])
    decreases |outs|
  {
    if outs != [] {
      var u := if outs[0].id <= t.req.ack then t
               else t.(written := t.written[t.req.id := t.written[t.req.id] + [outs[0]]],
                       req := t.req.(ack := outs[0].id));
      ReceiveKeeps(u, outs[1..]);
    }
  }

  // The loop body as the edge runs it: fields updated in place, outputs one by one.
  class EdgeLoop {
    var req: Request
    var done: bool
    ghost var written: map<nat, seq<Output>>
    ghost var script: map<nat, seq<Command>>

    ghost predicate Valid()
      reads this
    {
      req.id in written && req.id in script
    }

    ghost function State(): Terminal
      reads this
    {
      Terminal(req, written, script, done)
    }

    constructor (edge: nat, id: nat)
      ensures Valid() && State() == Dial(edge, id)
    {
      req := Request(edge, id, 1, 0, Open, "");
      done := false;
      written := map[id := []];
      script := map[id := [Command(Open, "")]];
    }

    method WriteOutputs(outs: seq<Output>)
      requires Valid()
      modifies this
      ensures Valid() && State() == Receive(old(State()), outs)
    {
      var i := 0;
      while i < |outs|
        invariant 0 <= i <= |outs| && Valid()
        invariant Receive(State(), outs[i..]) == Receive(old(State()), outs)
      {
        assert outs[i..][1..] == outs[i + 1..];
        if outs[i].id > req.ack {
          written := written[req.id := written[req.id] + [outs[i]]];
          req := req.(ack := outs[i].id);
        }
        i := i + 1;
      }
    }

    method Turn(reply: Response, next: Next, id: nat, broken: Option<nat>)
      requires Valid() && !done
      modifies this
      ensures Valid() && State() == Proceed(old(State()), reply, next, id, broken)
    {
      if reply.reset {
        if broken.None? {
          req := Request(req.edge, id, 1, 0, Open, "");
          written := written[id := []];
          script := script[id := [Command(Open, "")]];
          return;
        }
        Leave();
        return;
      }
      ghost var before := State();
      var cutoff := if broken.Some? && broken.value <= |reply.output| then broken.value else |reply.output|;
      assert reply.output[..|reply.output|] == reply.output;
      WriteOutputs(reply.output[..cutoff]);
      ReceiveKeeps(before, reply.output[..cutoff]);
      if reply.closed || (broken.Some? && broken.value <= |reply.output|) {
        Leave();
        return;
      }
      ghost var r := State();
      var c := NextCommand(next);
      req := req.(sequence := req.sequence + 1, kind := c.kind, line := c.line);
      done := next == Stop;
      script := script[req.id := script[req.id] + [c]];
      assert State() == Continue(r, next);
    }

    method Leave()
      requires Valid()
      modifies this
      ensures Valid() && State() == Finish(old(State()))
    {
      req := req.(kind := Close, line := "");
      done := true;
    }

    // One answer: `call` reports an answer out of sequence as an error, so it moves
    // nothing and the very same request is sent again; any other answer takes a turn.
    method Answer(reply: Response, next: Next, id: nat, broken: Option<nat>)
      requires Valid() && !done
      modifies this
      ensures Valid()
      ensures State() == if reply.sequence == old(req.sequence) then Proceed(old(State()), reply, next, id, broken)
                         else old(State())
    {
      if reply.sequence != req.sequence {
        return;
      }
      Turn(reply, next, id, broken);
    }
  }
}
