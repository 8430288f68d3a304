// One terminal session as the core keeps it: the durable checkpoint, the live
// connection rebuilt from it in every dispatch, and the bounded outbox that
// `outputConn.Write` appends to (internal/telnet/core.go).
module CoreSession {
  import opened Wrappers
  import opened Terminalwire

  const OUTBOX_LIMIT := 65536

  datatype Phase = Connected | AwaitingUsername | AwaitingAuth | Authenticated | InGame

  datatype Credential = Credential(user: nat, version: nat)

  // `view` stands for every checkpointed field that no guard of the dispatch reads:
  // terminal, presentation, editor, room and character details.
  datatype Conn = Conn(
    phase: Phase,
    credential: Option<Credential>,
    character: Option<nat>,
    room: Option<nat>,
    token: string,
    view: string)

  datatype Checkpoint = Checkpoint(
    conn: Conn,
    output: seq<Output>,
    nextOutput: nat,
    closed: bool,
    scene: string)

  datatype Session = Session(edge: nat, sequence: nat, saved: Checkpoint, conn: Conn, dirty: bool)

  datatype User = User(active: bool, version: nat)

  // SessionActive: missing users, disabled users and versions below one fail closed.
  predicate Active(users: map<nat, User>, c: Credential) {
    c.version >= 1 && c.user in users && users[c.user].active && users[c.user].version == c.version
  }

  predicate SignedIn(c: Conn) {
    c.phase.Authenticated? || c.phase.InGame?
  }

  // The session plays a character: it is what claims ownership in the player hub.
  predicate Playing(closed: bool, c: Conn) {
    !closed && c.phase.InGame? && c.character.Some?
  }

  function Size(out: seq<Output>): nat {
    if out == [] then 0 else Size(out[..|out| - 1]) + |out[|out| - 1].data|
  }

  // The IDs still pending are one contiguous range that ends at nextOutput, and the
  // data pending stays within the limit.
  ghost predicate Shape(c: Checkpoint) {
    && |c.output| <= c.nextOutput
    && (forall i :: 0 <= i < |c.output| ==> c.output[i].id == c.nextOutput - |c.output| + 1 + i)
    && Size(c.output) <= OUTBOX_LIMIT
  }

  // outputConn.Write: overflow retires the session and drops the data.
  function Write(s: Session, data: string): Session {
    if |data| + Size(s.saved.output) > OUTBOX_LIMIT then
      s.(saved := s.saved.(closed := true), dirty := true)
    else
      s.(saved := s.saved.(output := s.saved.output + [Output(s.saved.nextOutput + 1, data)],
                           nextOutput := s.saved.nextOutput + 1),
         dirty := true)
  }

  function WriteAll(s: Session, lines: seq<string>): Session {
    if lines == [] then s else Write(WriteAll(s, lines[..|lines| - 1]), lines[|lines| - 1])
  }

  // Outputs the edge has acknowledged leave the outbox from the front.
  function Trim(out: seq<Output>, ack: nat): seq<Output> {
    if out != [] && out[0].id <= ack then Trim(out[1..], ack) else out
  }

  // What writing may do to a checkpoint: append outputs with the next IDs, or close.
  ghost predicate Grows(c: Checkpoint, d: Checkpoint) {
    && |c.output| <= |d.output|
    && d.output[..|c.output|] == c.output
    && d.nextOutput == c.nextOutput + (|d.output| - |c.output|)
    && (c.closed ==> d.closed)
    && (Shape(c) ==> Shape(d))
  }

  // What writing may do to a session: only its outbox changes, and then it is dirty.
  ghost predicate Quiet(s: Session, t: Session) {
    && t.edge == s.edge && t.sequence == s.sequence && t.conn == s.conn
    && t.saved.conn == s.saved.conn && t.saved.scene == s.saved.scene
    && Grows(s.saved, t.saved)
    && (s.dirty ==> t.dirty)
    && (t.saved != s.saved ==> t.dirty)
  }

  lemma SizeAppend(out: seq<Output>, o: Output)
    ensures Size(out + [o]) == Size(out) + |o.data|
  {
    assert (out + [o])[..|out|] == out;
  }

  lemma {:induction false} SizeDropFirst(out: seq<Output>)
    requires out != []
    ensures Size(out) == |out[0].data| + Size(out[1..])
  {
    if |out| == 1 {
      assert out[..0] == [] && out[1..] == [];
    } else {
      SizeDropFirst(out[..|out| - 1]);
      assert out[..|out| - 1][1..] == out[1..][..|out| - 2];
    }
  }

  lemma WriteQuiet(s: Session, data: string)
    ensures Quiet(s, Write(s, data))
  {
    if |data| + Size(s.saved.output) <= OUTBOX_LIMIT {
      SizeAppend(s.saved.output, Output(s.saved.nextOutput + 1, data));
    }
  }

  lemma GrowsTransitive(a: Checkpoint, b: Checkpoint, c: Checkpoint)
    requires Grows(a, b) && Grows(b, c)
    ensures Grows(a, c)
  {
    assert c.output[..|a.output|] == c.output[..|b.output|][..|a.output|];
  }

  lemma {:induction false} WriteAllQuiet(s: Session, lines: seq<string>)
    ensures Quiet(s, WriteAll(s, lines))
  {
    if lines != [] {
      var t := WriteAll(s, lines[..|lines| - 1]);
      WriteAllQuiet(s, lines[..|lines| - 1]);
      WriteQuiet(t, lines[|lines| - 1]);
      GrowsTransitive(s.saved, t.saved, WriteAll(s, lines).saved);
    }
  }

  // Trimming keeps the shape, keeps a suffix, and removes exactly the acknowledged IDs.
  lemma {:induction false} TrimKeeps(c: Checkpoint, ack: nat)
    requires Shape(c)
    ensures var t := Trim(c.output, ack);
            && |t| <= |c.output| && t == c.output[|c.output| - |t|..]
            && Shape(c.(output := t))
            && |t| == (if ack <= c.nextOutput - |c.output| then |c.output|
                       else if ack <= c.nextOutput then c.nextOutput - ack else 0)
    decreases |c.output|
  {
    if c.output != [] && c.output[0].id <= ack {
      var d := c.(output := c.output[1..]);
      SizeDropFirst(c.output);
      assert Shape(d);
      TrimKeeps(d, ack);
      var t := Trim(c.output, ack);
      assert c.output[1..][|c.output| - 1 - |t|..] == c.output[|c.output| - |t|..];
    }
  }
}
