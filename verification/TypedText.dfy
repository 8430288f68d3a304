// What a player types arrives as typed, on a plain terminal and through the keyboard of a
// PETSCII terminal, and the keys that edit a line.
module TypedText {
  import opened TelnetCodec
  import Petscii

  // ---------------------------------------------------------------- one line

  // Keys that print one character each.
  ghost predicate Spell(petscii: bool, keys: seq<byte>, text: seq<byte>) {
    |keys| == |text| && forall i :: 0 <= i < |keys| ==> Prints(keys[i]) && Printed(petscii, keys[i]) == text[i]
  }

  // Printing keys add their characters in order until 1024 are there; one more makes the
  // line too long.
  lemma {:induction false} TypesText(petscii: bool, t: Typing, keys: seq<byte>, text: seq<byte>)
    requires Spell(petscii, keys, text) && !t.tooLong && |t.text| <= 1024
    ensures Ended(TypeAll(petscii, t, keys)) == if |t.text + text| <= 1024 then Text(t.text + text) else TooLong
    decreases |keys|
  {
    if keys == [] {
      assert t.text + text == t.text;
    } else if |t.text| == 1024 {
      StaysTooLong(petscii, Type(petscii, t, keys[0]), keys[1..], text[1..]);
    } else {
      TypesText(petscii, Type(petscii, t, keys[0]), keys[1..], text[1..]);
      assert t.text + [text[0]] + text[1..] == t.text + text;
    }
  }

  lemma {:induction false} StaysTooLong(petscii: bool, t: Typing, keys: seq<byte>, text: seq<byte>)
    requires Spell(petscii, keys, text) && t.tooLong
    ensures TypeAll(petscii, t, keys).tooLong
    decreases |keys|
  {
    if keys != [] {
      StaysTooLong(petscii, Type(petscii, t, keys[0]), keys[1..], text[1..]);
    }
  }

  // An erasing key takes back the character before it and is idle on an empty line; other
  // control keys do nothing; a tab is a blank.
  lemma EditingKeys(petscii: bool, t: Typing, b: byte, e: byte)
    requires !t.tooLong && |t.text| < 1024
    requires (b == 0x09 || (b >= 0x20 && b != 0x7F)) && e in {0x08, 0x14, 0x7F}
    ensures TypeAll(petscii, t, [b, e]) == t && TypeAll(petscii, EMPTY, [e]) == EMPTY
    ensures TypeAll(petscii, t, [0x09]) == TypeAll(petscii, t, [0x20]) == t.(text := t.text + [0x20])
    ensures forall k: byte :: k < 0x20 && k !in {0x08, 0x09, 0x14} ==> TypeAll(petscii, t, [k]) == t
  {
    TypeNext(petscii, t, [b], e);
    assert [b] + [e] == [b, e];
    TypeKey(petscii, t, b);
    TypeKey(petscii, t, 0x09);
    TypeKey(petscii, t, 0x20);
    TypeKey(petscii, EMPTY, e);
    forall k: byte | k < 0x20 && k !in {0x08, 0x09, 0x14}
      ensures TypeAll(petscii, t, [k]) == t
    {
      TypeKey(petscii, t, k);
    }
    hide TypeAll, Keyed;
    BlankIsBlank(petscii);
  }

  lemma TypeKey(petscii: bool, t: Typing, k: byte)
    ensures TypeAll(petscii, t, [k]) == Type(petscii, t, k)
  {
    TypeNext(petscii, t, [], k);
    assert [] + [k] == [k];
  }

  lemma BlankIsBlank(petscii: bool)
    ensures Keyed(petscii, 0x20) == 0x20
  {
  }

  // ---------------------------------------------------------------- many lines

  // Lines as a terminal sends them, each ended by CR LF.
  function Sent(lines: seq<seq<byte>>): seq<byte> {
    if lines == [] then [] else lines[0] + ([13, 10] + Sent(lines[1..]))
  }

  predicate NoEnd(keys: seq<byte>) {
    13 !in keys && 10 !in keys
  }

  lemma {:induction false} StripsLine(keys: seq<byte>, later: seq<byte>)
    requires NoEnd(keys)
    ensures Strip(keys + ([13, 10] + later), false) == keys + ([13] + Strip(later, false))
    decreases |keys|
  {
    var app := keys + ([13, 10] + later);
    if keys == [] {
      assert app == [13, 10] + later && app[1..] == [10] + later && app[1..][1..] == later;
      assert keys + ([13] + Strip(later, false)) == [13] + Strip(later, false);
    } else {
      assert app[1..] == keys[1..] + ([13, 10] + later);
      StripsLine(keys[1..], later);
      assert keys == [keys[0]] + keys[1..];
    }
  }

  lemma {:induction false} CompletesLine(keys: seq<byte>, later: seq<byte>, pending: seq<byte>)
    requires NoEnd(keys)
    ensures Completed(keys + ([13] + later), pending) == [pending + keys] + Completed(later, [])
    decreases |keys|
  {
    var all := keys + ([13] + later);
    if keys == [] {
      assert all == [13] + later && all[1..] == later && pending + keys == pending;
    } else {
      assert all[1..] == keys[1..] + ([13] + later);
      CompletesLine(keys[1..], later, pending + [keys[0]]);
      assert pending + [keys[0]] + keys[1..] == pending + keys;
    }
  }

  lemma {:induction false} SentCompletes(lines: seq<seq<byte>>)
    requires forall l :: l in lines ==> NoEnd(l)
    ensures Completed(Strip(Sent(lines), false), []) == lines
    decreases |lines|
  {
    if lines != [] {
      assert NoEnd(lines[0]);
      StripsLine(lines[0], Sent(lines[1..]));
      CompletesLine(lines[0], Strip(Sent(lines[1..]), false), []);
      SentCompletes(lines[1..]);
      hide Completed, Strip;
      assert [] + lines[0] == lines[0];
      assert [lines[0]] + lines[1..] == lines;
    }
  }

  lemma {:induction false} EnteredAt(petscii: bool, stretches: seq<seq<byte>>, i: nat)
    requires i < |stretches|
    ensures |Entered(petscii, stretches)| == |stretches|
    ensures Entered(petscii, stretches)[i] == Ended(TypeAll(petscii, EMPTY, stretches[i]))
    decreases |stretches|
  {
    if |stretches| > 1 {
      EnteredAt(petscii, stretches[1..], if i == 0 then 0 else i - 1);
    } else {
      assert Entered(petscii, stretches[1..]) == [];
    }
  }

  // However commands are interleaved with them, lines sent are read one by one.
  lemma SentIsRead(petscii: bool, lines: seq<seq<byte>>, items: seq<Item>)
    requires forall l :: l in lines ==> NoEnd(l)
    requires (forall i :: i in items ==> ItemOk(i)) && DataOf(items) == Sent(lines)
    ensures LinesFrom(petscii, Wire(items), EMPTY, false) == Entered(petscii, lines)
  {
    Transparent(petscii, items, items, [], false);
    assert Wire(items) + [] == Wire(items);
    assert Application([]) == [] && Sent(lines) + [] == Sent(lines);
    SentCompletes(lines);
  }

  // A plain terminal: lines of any bytes but control keys are read exactly as they were
  // typed, if they have at most 1024 bytes, and rejected otherwise.
  lemma PlainLines(lines: seq<seq<byte>>, items: seq<Item>)
    requires forall l :: l in lines ==> forall b :: b in l ==> b >= 0x20 && b != 0x7F
    requires (forall i :: i in items ==> ItemOk(i)) && DataOf(items) == Sent(lines)
    ensures var read := LinesFrom(false, Wire(items), EMPTY, false);
            && |read| == |lines|
            && forall i :: 0 <= i < |lines| ==> read[i] == if |lines[i]| <= 1024 then Text(lines[i]) else TooLong
  {
    SentIsRead(false, lines, items);
    if lines == [] {
      assert Entered(false, lines) == [];
    }
    forall i | 0 <= i < |lines|
      ensures |Entered(false, lines)| == |lines|
      ensures Entered(false, lines)[i] == if |lines[i]| <= 1024 then Text(lines[i]) else TooLong
    {
      EnteredAt(false, lines, i);
      forall k | 0 <= k < |lines[i]|
        ensures Prints(lines[i][k]) && Printed(false, lines[i][k]) == lines[i][k]
      {
        assert lines[i] in lines && lines[i][k] in lines[i];
      }
      TypesText(false, EMPTY, lines[i], lines[i]);
      assert EMPTY.text + lines[i] == lines[i];
    }
  }

  // ---------------------------------------------------------------- the PETSCII keyboard

  predicate Letters(text: string) {
    forall i :: 0 <= i < |text| ==> ' ' <= text[i] <= '~'
  }

  function Code(c: char): byte
    requires c <= '~'
  {
    c as int
  }

  function Ascii(text: string): seq<byte>
    requires Letters(text)
  {
    seq(|text|, i requires 0 <= i < |text| => Code(text[i]))
  }

  // The keys of a PETSCII terminal for a text: what encodes a character is also the key
  // that types it.
  lemma {:induction false} EncodingSpells(text: string)
    requires Letters(text)
    ensures Spell(true, Petscii.Encode(text), Ascii(text)) && NoEnd(Petscii.Encode(text))
  {
    if text != [] {
      var c := text[0];
      assert ' ' <= c <= '~';
      EncodingSpells(text[1..]);
      var keys := Petscii.Encode(text);
      assert keys == Petscii.EncodeChar(c) + Petscii.Encode(text[1..]);
      assert |Petscii.EncodeChar(c)| == 1;
      var k: byte := Petscii.EncodeChar(c)[0];
      assert Prints(k) && Printed(true, k) == c as int && !EndsLine(k);
      hide Prints, Printed, Petscii.EncodeChar;
      assert keys == [k] + Petscii.Encode(text[1..]);
    }
  }

  function Keys(texts: seq<string>): seq<seq<byte>> {
    seq(|texts|, i requires 0 <= i < |texts| => Petscii.Encode(texts[i]))
  }

  // What is shown on a PETSCII screen can be typed back: lines entered by the codes of
  // their own characters are read as those characters.
  lemma PetsciiLines(texts: seq<string>, items: seq<Item>)
    requires forall t :: t in texts ==> Letters(t)
    requires (forall i :: i in items ==> ItemOk(i)) && DataOf(items) == Sent(Keys(texts))
    ensures var read := LinesFrom(true, Wire(items), EMPTY, false);
            && |read| == |texts|
            && forall i :: 0 <= i < |texts| ==>
                 Letters(texts[i]) && read[i] == if |texts[i]| <= 1024 then Text(Ascii(texts[i])) else TooLong
  {
    var lines := Keys(texts);
    forall l | l in lines
      ensures NoEnd(l)
    {
      var i :| 0 <= i < |texts| && l == Petscii.Encode(texts[i]);
      EncodingSpells(texts[i]);
    }
    SentIsRead(true, lines, items);
    if texts == [] {
      assert Entered(true, lines) == [];
    }
    forall i | 0 <= i < |texts|
      ensures |Entered(true, lines)| == |texts| && Letters(texts[i])
      ensures Entered(true, lines)[i] == if |texts[i]| <= 1024 then Text(Ascii(texts[i])) else TooLong
    {
      assert texts[i] in texts;
      EnteredAt(true, lines, i);
      EncodingSpells(texts[i]);
      TypesText(true, EMPTY, lines[i], Ascii(texts[i]));
      assert EMPTY.text + Ascii(texts[i]) == Ascii(texts[i]);
    }
  }

  // Capital letters have two keys each, shifted and in the upper range of codes; both type
  // the same letter, and the plain key types the small one.
  lemma BothShifts(t: Typing, i: nat)
    requires i < 26 && !t.tooLong && |t.text| < 1024
    ensures TypeAll(true, t, [0x61 + i]) == TypeAll(true, t, [0xC1 + i]) == t.(text := t.text + ['A' as int + i])
    ensures TypeAll(true, t, [0x41 + i]) == t.(text := t.text + ['a' as int + i])
  {
    hide TypeAll, Type, Prints, Printed, Keyed, Erases;
    LetterKeys(i);
    TypeOne(t, 0x61 + i, 0x41 + i);
    TypeOne(t, 0xC1 + i, 0x41 + i);
    TypeOne(t, 0x41 + i, 0x61 + i);
  }

  lemma LetterKeys(i: nat)
    requires i < 26
    ensures Prints(0x41 + i) && Prints(0x61 + i) && Prints(0xC1 + i)
    ensures Printed(true, 0x41 + i) == 0x61 + i && Printed(true, 0x61 + i) == 0x41 + i && Printed(true, 0xC1 + i) == 0x41 + i
  {
  }

  lemma TypeOne(t: Typing, k: byte, b: byte)
    requires !t.tooLong && |t.text| < 1024 && Prints(k) && Printed(true, k) == b
    ensures TypeAll(true, t, [k]) == t.(text := t.text + [b])
  {
    TypeKey(true, t, k);
  }

  // What a screen shows for characters its alphabet lacks: three dots for an ellipsis and a
  // question mark for any other; CR, LF and CR LF are one line break each.
  lemma Substitutes(c: char, text: string)
    ensures c > '~' ==> Petscii.Encode([c] + text) ==
                        (if c == '\U{2026}' then ['.' as int, '.' as int, '.' as int] else ['?' as int]) + Petscii.Encode(text)
    ensures c < ' ' && c != '\r' && c != '\n' ==> Petscii.Encode([c] + text) == ['?' as int] + Petscii.Encode(text)
    ensures Petscii.Encode("\n" + text) == [13] + Petscii.Encode(text) == Petscii.Encode("\r\n" + text)
    ensures text == [] || text[0] != '\n' ==> Petscii.Encode("\r" + text) == [13] + Petscii.Encode(text)
  {
    assert ([c] + text)[1..] == text && ("\n" + text)[1..] == text && ("\r" + text)[1..] == text && ("\r\n" + text)[2..] == text;
  }

  // A subnegotiation of up to 1023 bytes is skipped like any command; one that goes on
  // after 1024 breaks the stream.
  lemma SubnegotiationLimit(option: byte, data: seq<byte>, tail: seq<byte>)
    ensures |data| <= 1023 ==> NextByte(Bytes(Sub(option, data)) + tail) == NextByte(tail)
    ensures |data| >= 1024 ==> NextByte([IAC, SB, option] + Escape(data) + tail).Broken?
  {
    if |data| <= 1023 {
      ItemRoundTrip(Sub(option, data), tail);
    } else {
      var input := [IAC, SB, option] + Escape(data) + tail;
      assert input[3..] == Escape(data) + tail;
      SubBreaks(option, [], data, tail);
      hide Escape, NextSub;
      assert NextItem(input) == NextSub(option, [], input[3..]);
    }
  }

  lemma {:induction false} SubBreaks(option: byte, before: seq<byte>, data: seq<byte>, tail: seq<byte>)
    requires |before| <= 1024 <= |before| + |data|
    ensures NextSub(option, before, Escape(data) + tail).Broken?
    decreases |data|
  {
    if |before| < 1024 {
      var later := Escape(data[1..]) + tail;
      SubBreaks(option, before + [data[0]], data[1..], tail);
      assert Escape(data) + tail == (if data[0] == IAC then [IAC, IAC] else [data[0]]) + later;
      hide Escape;
      SubReadsOne(option, before, data[0], later);
    }
  }
}
