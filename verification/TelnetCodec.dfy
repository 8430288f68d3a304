// Telnet commands in the byte stream of a terminal and the lines typed between them
// (internal/telnet/connection.go; RFC 854, RFC 855).
module TelnetCodec {
  import opened Wrappers

  type byte = x: int | 0 <= x < 256

  const IAC: byte := 255
  const SB: byte := 250
  const SE: byte := 240
  const LINE_LIMIT := 1024
  const SUB_LIMIT := 1024

  // What a client can put on the wire: data, an option command, a subnegotiation, or
  // another command of two bytes.
  datatype Item =
    | Data(b: byte)
    | Negotiation(command: byte, option: byte)
    | Sub(option: byte, data: seq<byte>)
    | Other(command: byte)

  predicate ItemOk(i: Item) {
    match i
    case Data(_) => true
    case Negotiation(command, _) => 251 <= command <= 254
    case Sub(_, data) => |data| < SUB_LIMIT
    case Other(command) => command < 250
  }

  function Escape(data: seq<byte>): seq<byte> {
    if data == [] then []
    else (if data[0] == IAC then [IAC, IAC] else [data[0]]) + Escape(data[1..])
  }

  function Bytes(i: Item): seq<byte> {
    match i
    case Data(b) => if b == IAC then [IAC, IAC] else [b]
    case Negotiation(command, option) => [IAC, command, option]
    case Sub(option, data) => [IAC, SB, option] + Escape(data) + [IAC, SE]
    case Other(command) => [IAC, command]
  }

  function Wire(items: seq<Item>): seq<byte> {
    if items == [] then [] else Bytes(items[0]) + Wire(items[1..])
  }

  function DataOf(items: seq<Item>): seq<byte> {
    if items == [] then [] else (if items[0].Data? then [items[0].b] else []) + DataOf(items[1..])
  }

  // ---------------------------------------------------------------- reading one item

  // The next item, or a stream that ends or breaks inside one.
  datatype Scan = Found(item: Item, rest: seq<byte>) | Broken

  function NextSub(option: byte, data: seq<byte>, input: seq<byte>): (r: Scan)
    ensures r.Found? ==> |r.rest| < |input|
    decreases |input|
  {
    if input == [] || |data| >= SUB_LIMIT then Broken
    else if input[0] != IAC then NextSub(option, data + [input[0]], input[1..])
    else if |input| < 2 then Broken
    else if input[1] == SE then Found(Sub(option, data), input[2..])
    else if input[1] == IAC then NextSub(option, data + [IAC], input[2..])
    else Broken
  }

  function NextItem(input: seq<byte>): (r: Scan)
    ensures r.Found? ==> |r.rest| < |input|
  {
    if input == [] then Broken
    else if input[0] != IAC then Found(Data(input[0]), input[1..])
    else if |input| < 2 then Broken
    else if input[1] == IAC then Found(Data(IAC), input[2..])
    else if input[1] == SB then if |input| < 3 then Broken else NextSub(input[2], [], input[3..])
    else if 251 <= input[1] <= 254 then if |input| < 3 then Broken else Found(Negotiation(input[1], input[2]), input[3..])
    else Found(Other(input[1]), input[2..])
  }

  // A subnegotiation is read back, whatever its data and whatever follows.
  lemma {:induction false} SubReads(option: byte, before: seq<byte>, data: seq<byte>, tail: seq<byte>)
    requires |before| + |data| < SUB_LIMIT
    ensures NextSub(option, before, Escape(data) + [IAC, SE] + tail) == Found(Sub(option, before + data), tail)
    decreases |data|
  {
    var input := Escape(data) + [IAC, SE] + tail;
    if data == [] {
      assert input == [IAC, SE] + tail;
      assert input[2..] == tail && before + data == before;
    } else {
      var later := Escape(data[1..]) + [IAC, SE] + tail;
      SubReads(option, before + [data[0]], data[1..], tail);
      assert (before + [data[0]]) + data[1..] == before + data;
      var head := if data[0] == IAC then [IAC, IAC] else [data[0]];
      assert input == head + later;
      hide Escape;
      SubReadsOne(option, before, data[0], later);
    }
  }

  lemma SubReadsOne(option: byte, before: seq<byte>, b: byte, later: seq<byte>)
    requires |before| < SUB_LIMIT
    ensures NextSub(option, before, (if b == IAC then [IAC, IAC] else [b]) + later) == NextSub(option, before + [b], later)
  {
    var head := if b == IAC then [IAC, IAC] else [b];
    assert (head + later)[|head|..] == later;
  }

  lemma {:induction false} SubIsWire(option: byte, before: seq<byte>, input: seq<byte>) returns (data: seq<byte>)
    requires NextSub(option, before, input).Found?
    ensures NextSub(option, before, input).item == Sub(option, before + data) && |before + data| < SUB_LIMIT
    ensures input == Escape(data) + [IAC, SE] + NextSub(option, before, input).rest
    decreases |input|
  {
    if input[0] == IAC && input[1] == SE {
      data := [];
      assert input == [IAC, SE] + input[2..];
      assert Escape([]) + [IAC, SE] == [IAC, SE] && before + [] == before;
    } else {
      var n := if input[0] == IAC then 2 else 1;
      var b: byte := input[0];
      var later := SubIsWire(option, before + [b], input[n..]);
      data := [b] + later;
      assert before + data == before + [b] + later && data[1..] == later;
      EscapeFirst(input, n, later, NextSub(option, before, input).rest);
    }
  }

  lemma EscapeFirst(input: seq<byte>, n: nat, later: seq<byte>, rest: seq<byte>)
    requires n <= |input| && 1 <= n <= 2 && (n == 2 <==> input[0] == IAC) && (n == 2 ==> input[1] == IAC)
    requires input[n..] == Escape(later) + [IAC, SE] + rest
    ensures input == Escape([input[0]] + later) + [IAC, SE] + rest
  {
    var b: byte := input[0];
    assert ([b] + later)[1..] == later;
    var head := if b == IAC then [IAC, IAC] else [b];
    assert input[..n] == head && input == input[..n] + input[n..];
    assert head + (Escape(later) + [IAC, SE] + rest) == head + Escape(later) + [IAC, SE] + rest;
  }

  // Reading inverts writing: a well-formed item in front of any bytes is read as itself,
  // and whatever is read as an item was that item on the wire.
  lemma ItemRoundTrip(i: Item, tail: seq<byte>)
    requires ItemOk(i)
    ensures NextItem(Bytes(i) + tail) == Found(i, tail)
  {
    if i.Sub? {
      SubRoundTrip(i.option, i.data, tail);
    } else {
      hide NextSub, Escape;
      var input := Bytes(i) + tail;
      assert input[|Bytes(i)|..] == tail;
    }
  }

  lemma SubRoundTrip(option: byte, data: seq<byte>, tail: seq<byte>)
    requires |data| < SUB_LIMIT
    ensures NextItem(Bytes(Sub(option, data)) + tail) == Found(Sub(option, data), tail)
  {
    SubReads(option, [], data, tail);
    hide NextSub, Escape;
    var input := Bytes(Sub(option, data)) + tail;
    assert input == [IAC, SB, option] + (Escape(data) + [IAC, SE] + tail);
    assert input[3..] == Escape(data) + [IAC, SE] + tail && [] + data == data;
  }

  lemma ItemIsWire(input: seq<byte>)
    requires NextItem(input).Found?
    ensures ItemOk(NextItem(input).item) && input == Bytes(NextItem(input).item) + NextItem(input).rest
  {
    if input[0] == IAC && input[1] == SB {
      var data := SubIsWire(input[2], [], input[3..]);
      hide NextSub, Escape;
      assert [] + data == data;
      assert input == [IAC, SB, input[2]] + input[3..];
    }
  }

  // ---------------------------------------------------------------- application bytes

  // Negotiation is skipped: the next byte of data.
  function NextByte(input: seq<byte>): (r: Scan)
    ensures r.Found? ==> r.item.Data? && |r.rest| < |input|
    decreases |input|
  {
    var r := NextItem(input);
    if r.Broken? || r.item.Data? then r else NextByte(r.rest)
  }

  // All data up to the point where the stream ends or breaks.
  function Application(input: seq<byte>): seq<byte>
    decreases |input|
  {
    var r := NextByte(input);
    if r.Broken? then [] else [r.item.b] + Application(r.rest)
  }

  lemma ApplicationStep(input: seq<byte>)
    ensures var r := NextItem(input);
            Application(input) == if r.Broken? then [] else (if r.item.Data? then [r.item.b] else []) + Application(r.rest)
  {
  }

  lemma Associates(a: seq<byte>, b: seq<byte>, c: seq<byte>)
    ensures a + b + c == a + (b + c)
  {
  }

  lemma DataThroughOne(i: Item, later: seq<byte>)
    requires ItemOk(i)
    ensures Application(Bytes(i) + later) == (if i.Data? then [i.b] else []) + Application(later)
  {
    ItemRoundTrip(i, later);
    ApplicationStep(Bytes(i) + later);
  }

  // Well-formed items in front of a stream add their data, and nothing else.
  lemma {:induction false} DataThrough(items: seq<Item>, tail: seq<byte>)
    requires forall i :: i in items ==> ItemOk(i)
    ensures Application(Wire(items) + tail) == DataOf(items) + Application(tail)
    decreases |items|
  {
    if items == [] {
      assert Wire(items) + tail == tail && DataOf(items) + Application(tail) == Application(tail);
    } else {
      assert items[0] in items;
      DataThroughOne(items[0], Wire(items[1..]) + tail);
      DataThrough(items[1..], tail);
      hide Bytes, Application, ItemOk;
      Associates(Bytes(items[0]), Wire(items[1..]), tail);
      Associates(if items[0].Data? then [items[0].b] else [], DataOf(items[1..]), Application(tail));
    }
  }

  // ---------------------------------------------------------------- lines

  datatype Line = Text(text: seq<byte>) | TooLong

  datatype Reading = Read(line: Line, rest: seq<byte>, afterCR: bool) | Lost

  // The line being typed: what is left of it after editing, and whether it overflowed.
  datatype Typing = Typing(text: seq<byte>, tooLong: bool)

  const EMPTY := Typing([], false)

  predicate Erases(b: byte) {
    b in {0x08, 0x14, 0x7F}
  }

  // Upper and lower case are exchanged on a PETSCII keyboard.
  function Keyed(petscii: bool, b: byte): byte {
    if !petscii then b
    else if 0x41 <= b <= 0x5A then b + 0x20
    else if 0x61 <= b <= 0x7A then b - 0x20
    else if 0xC1 <= b <= 0xDA then b - 0x80
    else b
  }

  predicate Prints(b: byte) {
    b == 0x09 || (b >= 0x20 && !Erases(b))
  }

  function Printed(petscii: bool, b: byte): byte {
    Keyed(petscii, if b == 0x09 then 0x20 else b)
  }

  function Type(petscii: bool, t: Typing, b: byte): Typing {
    if Erases(b) then t.(text := if t.text == [] then [] else t.text[..|t.text| - 1])
    else if !Prints(b) || t.tooLong then t
    else if |t.text| >= LINE_LIMIT then t.(tooLong := true)
    else t.(text := t.text + [Printed(petscii, b)])
  }

  function Ended(t: Typing): Line {
    if t.tooLong then TooLong else Text(t.text)
  }

  // One call of ReadLine, the line so far in `t`.
  function ReadFrom(petscii: bool, input: seq<byte>, t: Typing, afterCR: bool): (r: Reading)
    ensures r.Read? ==> |r.rest| < |input|
    decreases |input|
  {
    var next := NextByte(input);
    if next.Broken? then Lost
    else
      var b := next.item.b;
      if afterCR && (b == 10 || b == 0) then ReadFrom(petscii, next.rest, t, false)
      else if b == 10 then Read(Ended(t), next.rest, false)
      else if b == 13 then Read(Ended(t), next.rest, true)
      else ReadFrom(petscii, next.rest, Type(petscii, t, b), false)
  }

  // Lines read by calling ReadLine until the stream is lost; `afterCR` is what one call
  // leaves to the next.
  function LinesFrom(petscii: bool, input: seq<byte>, t: Typing, afterCR: bool): seq<Line>
    decreases |input|
  {
    var r := ReadFrom(petscii, input, t, afterCR);
    if r.Lost? then [] else [r.line] + LinesFrom(petscii, r.rest, EMPTY, r.afterCR)
  }

  // The reference on data alone. CR LF and CR NUL are one end of line.
  function Strip(app: seq<byte>, afterCR: bool): seq<byte> {
    if app == [] then []
    else if afterCR && (app[0] == 10 || app[0] == 0) then Strip(app[1..], false)
    else [app[0]] + Strip(app[1..], app[0] == 13)
  }

  predicate EndsLine(b: byte) {
    b == 10 || b == 13
  }

  function TypeAll(petscii: bool, t: Typing, keys: seq<byte>): Typing
    decreases |keys|
  {
    if keys == [] then t else TypeAll(petscii, Type(petscii, t, keys[0]), keys[1..])
  }

  // Every stretch of keys that an end of line completes.
  function Completed(keys: seq<byte>, pending: seq<byte>): seq<seq<byte>> {
    if keys == [] then []
    else if EndsLine(keys[0]) then [pending] + Completed(keys[1..], [])
    else Completed(keys[1..], pending + [keys[0]])
  }

  function Entered(petscii: bool, stretches: seq<seq<byte>>): seq<Line> {
    if stretches == [] then []
    else [Ended(TypeAll(petscii, EMPTY, stretches[0]))] + Entered(petscii, stretches[1..])
  }

  lemma {:induction false} TypeNext(petscii: bool, t: Typing, keys: seq<byte>, b: byte)
    ensures TypeAll(petscii, t, keys + [b]) == Type(petscii, TypeAll(petscii, t, keys), b)
    decreases |keys|
  {
    if keys == [] {
      assert keys + [b] == [b];
    } else {
      assert (keys + [b])[1..] == keys[1..] + [b];
      TypeNext(petscii, Type(petscii, t, keys[0]), keys[1..], b);
    }
  }

  // Lines depend on the data alone, however commands are interleaved with it.
  lemma {:induction false} LinesAreEntered(petscii: bool, input: seq<byte>, pending: seq<byte>, afterCR: bool)
    ensures LinesFrom(petscii, input, TypeAll(petscii, EMPTY, pending), afterCR) ==
            Entered(petscii, Completed(Strip(Application(input), afterCR), pending))
    decreases |input|
  {
    var next := NextByte(input);
    if next.Found? {
      var b := next.item.b;
      var later := Application(next.rest);
      var app := Application(input);
      assert app[0] == b && app[1..] == later;
      if afterCR && (b == 10 || b == 0) {
        LinesAreEntered(petscii, next.rest, pending, false);
      } else if EndsLine(b) {
        LinesAreEntered(petscii, next.rest, [], b == 13);
        var keys := Strip(app, afterCR);
        assert keys[1..] == Strip(later, b == 13);
      } else {
        TypeNext(petscii, EMPTY, pending, b);
        LinesAreEntered(petscii, next.rest, pending + [b], false);
        var keys := Strip(app, afterCR);
        assert keys[1..] == Strip(later, false);
      }
    }
  }

  // Negotiation is transparent: the lines of a stream are those of its data. Streams
  // whose items differ only in commands give the same lines, across any number of calls.
  lemma Transparent(petscii: bool, items: seq<Item>, others: seq<Item>, tail: seq<byte>, afterCR: bool)
    requires forall i :: i in items + others ==> ItemOk(i)
    requires DataOf(items) == DataOf(others)
    ensures LinesFrom(petscii, Wire(items) + tail, EMPTY, afterCR) == LinesFrom(petscii, Wire(others) + tail, EMPTY, afterCR)
    ensures LinesFrom(petscii, Wire(items) + tail, EMPTY, afterCR) ==
            Entered(petscii, Completed(Strip(DataOf(items) + Application(tail), afterCR), []))
  {
    DataThrough(items, tail);
    DataThrough(others, tail);
    LinesAreEntered(petscii, Wire(items) + tail, [], afterCR);
    LinesAreEntered(petscii, Wire(others) + tail, [], afterCR);
  }

  lemma {:induction false} DataOfParts(a: seq<Item>, b: seq<Item>)
    ensures DataOf(a + b) == DataOf(a) + DataOf(b)
  {
    if a == [] {
      assert a + b == b;
    } else {
      assert (a + b)[0] == a[0] && (a + b)[1..] == a[1..] + b;
      DataOfParts(a[1..], b);
      var head := if a[0].Data? then [a[0].b] else [];
      assert DataOf(a + b) == head + DataOf(a[1..] + b);
      hide DataOf;
      assert head + (DataOf(a[1..]) + DataOf(b)) == head + DataOf(a[1..]) + DataOf(b);
    }
  }

  // Complete commands may be inserted between any two items, even between CR and LF.
  lemma InsertedCommands(petscii: bool, before: seq<Item>, commands: seq<Item>, after: seq<Item>, tail: seq<byte>, afterCR: bool)
    requires forall i :: i in before + commands + after ==> ItemOk(i)
    requires forall i :: i in commands ==> !i.Data?
    ensures LinesFrom(petscii, Wire(before + commands + after) + tail, EMPTY, afterCR) ==
            LinesFrom(petscii, Wire(before + after) + tail, EMPTY, afterCR)
  {
    NoData(commands);
    DataOfParts(before + commands, after);
    DataOfParts(before, commands);
    DataOfParts(before, after);
    Transparent(petscii, before + commands + after, before + after, tail, afterCR);
  }

  lemma {:induction false} NoData(commands: seq<Item>)
    requires forall i :: i in commands ==> !i.Data?
    ensures DataOf(commands) == []
  {
    if commands != [] {
      NoData(commands[1..]);
    }
  }

  // ---------------------------------------------------------------- line endings

  lemma {:induction false} StripKeys(keys: seq<byte>, later: seq<byte>, afterCR: bool)
    requires forall b :: b in keys ==> !EndsLine(b)
    requires afterCR ==> keys != [] && keys[0] != 0
    ensures Strip(keys + later, afterCR) == keys + Strip(later, false)
  {
    if keys == [] {
      assert keys + later == later;
    } else {
      assert keys[0] in keys && (keys + later)[0] == keys[0] && (keys + later)[1..] == keys[1..] + later;
      StripKeys(keys[1..], later, false);
      var rest := Strip(later, false);
      assert [keys[0]] + (keys[1..] + rest) == keys + rest;
    }
  }

  lemma {:induction false} CompletedKeys(keys: seq<byte>, later: seq<byte>, pending: seq<byte>)
    requires forall b :: b in keys ==> !EndsLine(b)
    ensures Completed(keys + later, pending) == Completed(later, pending + keys)
  {
    if keys == [] {
      assert keys + later == later && pending + keys == pending;
    } else {
      assert (keys + later)[1..] == keys[1..] + later;
      assert (pending + [keys[0]]) + keys[1..] == pending + keys;
      CompletedKeys(keys[1..], later, pending + [keys[0]]);
    }
  }

  // CR LF, CR NUL, CR and LF each end one line.
  lemma LineEndings(petscii: bool, keys: seq<byte>, ending: seq<byte>, later: seq<byte>)
    requires forall b :: b in keys ==> !EndsLine(b)
    requires ending in {[13, 10], [13, 0], [13], [10]}
    requires ending == [13] && later != [] ==> later[0] != 10 && later[0] != 0
    ensures Entered(petscii, Completed(Strip(keys + ending + later, false), [])) ==
            [Ended(TypeAll(petscii, EMPTY, keys))] + Entered(petscii, Completed(Strip(later, false), []))
  {
    var rest := ending + later;
    assert keys + ending + later == keys + rest;
    StripKeys(keys, rest, false);
    assert rest[|ending|..] == later;
    if |ending| == 2 {
      assert rest[1..][1..] == later;
    }
    var e := if ending == [10] then 10 else 13;
    assert Strip(rest, false) == [e] + Strip(later, false);
    CompletedKeys(keys, Strip(rest, false), []);
    assert [] + keys == keys;
    assert ([e] + Strip(later, false))[1..] == Strip(later, false);
    var stretches := Completed(Strip(rest, false), keys);
    assert stretches[1..] == Completed(Strip(later, false), []);
  }

  // ---------------------------------------------------------------- the limit

  // Editing without a limit.
  function Edited(petscii: bool, keys: seq<byte>): seq<byte> {
    if keys == [] then []
    else
      var before := Edited(petscii, keys[..|keys| - 1]);
      var b := keys[|keys| - 1];
      if Erases(b) then if before == [] then [] else before[..|before| - 1]
      else if Prints(b) then before + [Printed(petscii, b)]
      else before
  }

  // A line is rejected exactly when its edited length tried to exceed the limit, and a
  // line that is accepted is its editing.
  lemma {:induction false} RejectedIffTooLong(petscii: bool, keys: seq<byte>)
    ensures TypeAll(petscii, EMPTY, keys).tooLong <==>
            exists n :: 0 <= n <= |keys| && |Edited(petscii, keys[..n])| > LINE_LIMIT
    ensures !TypeAll(petscii, EMPTY, keys).tooLong ==>
              Ended(TypeAll(petscii, EMPTY, keys)) == Text(Edited(petscii, keys)) && |Edited(petscii, keys)| <= LINE_LIMIT
  {
    if keys != [] {
      var m := |keys| - 1;
      var before := keys[..m];
      RejectedIffTooLong(petscii, before);
      TypeNext(petscii, EMPTY, before, keys[m]);
      assert before + [keys[m]] == keys;
      assert forall n :: 0 <= n <= m ==> keys[..n] == before[..n];
      assert keys[..|keys|] == keys;
      if exists n :: 0 <= n <= |keys| && |Edited(petscii, keys[..n])| > LINE_LIMIT {
        var n :| 0 <= n <= |keys| && |Edited(petscii, keys[..n])| > LINE_LIMIT;
        assert n <= m ==> |Edited(petscii, before[..n])| > LINE_LIMIT;
      }
    }
  }

  // ---------------------------------------------------------------- the reader as it runs

  class Connection {
    var unread: seq<byte>
    var afterCR: bool
    const petscii: bool

    constructor (input: seq<byte>, petscii: bool)
      ensures unread == input && !afterCR && this.petscii == petscii
    {
      unread, afterCR, this.petscii := input, false, petscii;
    }

    method ReadByte() returns (b: Option<byte>)
      modifies this`unread
      ensures b == if old(unread) == [] then None else Some(old(unread)[0])
      ensures unread == if old(unread) == [] then [] else old(unread)[1..]
    {
      if unread == [] {
        return None;
      }
      b := Some(unread[0]);
      unread := unread[1..];
    }

    method ReadSubnegotiation(ghost input: seq<byte>) returns (ok: bool)
      requires |input| >= 2 && input[0] == IAC && input[1] == SB && unread == input[2..]
      modifies this`unread
      ensures ok <==> NextItem(input).Found?
      ensures ok ==> NextItem(input).item.Sub? && unread == NextItem(input).rest
    {
      var option := ReadByte();
      if option.None? {
        return false;
      }
      assert unread == input[3..];
      var data: seq<byte> := [];
      while true
        invariant NextSub(option.value, data, unread) == NextItem(input)
        decreases |unread|
      {
        var c := ReadByte();
        if c.None? || |data| >= SUB_LIMIT {
          return false;
        }
        if c.value != IAC {
          data := data + [c.value];
          continue;
        }
        var next := ReadByte();
        if next.None? {
          return false;
        }
        if next.value == SE {
          return true;
        }
        if next.value != IAC {
          return false;
        }
        data := data + [IAC];
      }
    }

    method ReadApplicationByte() returns (b: Option<byte>)
      modifies this`unread
      ensures var r := NextByte(old(unread));
              if r.Found? then b == Some(r.item.b) && unread == r.rest else b == None
    {
      while true
        invariant NextByte(unread) == NextByte(old(unread))
        decreases |unread|
      {
        ghost var input := unread;
        var c := ReadByte();
        if c.None? || c.value != IAC {
          return c;
        }
        var command := ReadByte();
        if command.None? {
          return None;
        }
        assert unread == input[2..];
        if command.value == IAC {
          return Some(IAC);
        }
        if command.value == SB {
          var ok := ReadSubnegotiation(input);
          if !ok {
            return None;
          }
          continue;
        }
        if 251 <= command.value <= 254 {
          var option := ReadByte();
          if option.None? {
            return None;
          }
        }
      }
    }

    method ReadLine() returns (line: Option<Line>)
      modifies this
      ensures var r := ReadFrom(petscii, old(unread), EMPTY, old(afterCR));
              if r.Read? then line == Some(r.line) && unread == r.rest && afterCR == r.afterCR else line == None
    {
      var text: seq<byte> := [];
      var tooLong := false;
      while true
        invariant ReadFrom(petscii, unread, Typing(text, tooLong), afterCR) == ReadFrom(petscii, old(unread), EMPTY, old(afterCR))
        decreases |unread|
      {
        var c := ReadApplicationByte();
        if c.None? {
          return None;
        }
        var b := c.value;
        if afterCR {
          afterCR := false;
          if b == 10 || b == 0 {
            continue;
          }
        }
        if b == 10 {
          return Some(if tooLong then TooLong else Text(text));
        } else if b == 13 {
          afterCR := true;
          return Some(if tooLong then TooLong else Text(text));
        } else if b == 0x08 || b == 0x14 || b == 0x7F {
          if |text| > 0 {
            text := text[..|text| - 1];
          }
        } else {
          if b == 0x09 {
            b := 0x20;
          }
          if b < 0x20 || tooLong {
            continue;
          }
          if |text| >= LINE_LIMIT {
            tooLong := true;
            continue;
          }
          text := text + [Keyed(petscii, b)];
        }
      }
    }
  }
}
