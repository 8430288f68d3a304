// PETSCII text: the byte alphabet and the greedy wrapper at 39 columns
// (internal/telnet/petscii.go, internal/telnet/petscii_screens.go).
module Petscii {
  const WIDTH := 39

  type byte = x: int | 0 <= x < 256

  const CR: byte := 13
  const BLANK: byte := 32

  type Word = seq<byte>

  // ---------------------------------------------------------------- the alphabet

  function EncodeChar(c: char): seq<byte> {
    if c == '\r' || c == '\n' then [CR]
    else if 'A' <= c <= 'Z' then [c as int - 'A' as int + 0xC1]
    else if 'a' <= c <= 'z' then [c as int - 32]
    else if ' ' <= c <= '~' then [c as int]
    else if c as int == 0x2026 then [0x2E, 0x2E, 0x2E]
    else [0x3F]
  }

  // CR LF is one line break.
  function Encode(text: string): seq<byte> {
    if text == [] then []
    else if |text| >= 2 && text[0] == '\r' && text[1] == '\n' then [CR] + Encode(text[2..])
    else EncodeChar(text[0]) + Encode(text[1..])
  }

  predicate Printable(b: byte) {
    0x20 <= b <= 0x60 || 0x7B <= b <= 0x7E || 0xC1 <= b <= 0xDA
  }

  // No byte of encoded text is a blank but the space: words are separated by spaces
  // alone, and no two bytes form a multi-byte blank.
  lemma EncodedAlphabet(text: string)
    ensures forall b :: b in Encode(text) ==> b == CR || Printable(b)
  {
    if text != [] {
      if |text| >= 2 && text[0] == '\r' && text[1] == '\n' {
        EncodedAlphabet(text[2..]);
      } else {
        EncodedAlphabet(text[1..]);
      }
    }
  }

  // What comes first in encoded text, and how many characters it took.
  function First(text: string): (r: (seq<byte>, nat))
    requires text != []
    ensures 1 <= r.1 <= |text| && Encode(text) == r.0 + Encode(text[r.1..])
  {
    if |text| >= 2 && text[0] == '\r' && text[1] == '\n' then ([CR], 2) else (EncodeChar(text[0]), 1)
  }

  lemma Adjacent(a: seq<byte>, b: seq<byte>, c: seq<byte>)
    ensures a + (b + c) == a + b + c
  {
  }

  method EncodeText(text: string) returns (out: seq<byte>)
    ensures out == Encode(text)
  {
    hide Encode, EncodeChar;
    out := [];
    var rest := text;
    assert [] + Encode(text) == Encode(text);
    while rest != []
      invariant out + Encode(rest) == Encode(text)
      decreases |rest|
    {
      var (added, n) := First(rest);
      Adjacent(out, added, Encode(rest[n..]));
      out := out + added;
      rest := rest[n..];
    }
    NothingEncoded();
    assert out + [] == out;
  }

  lemma NothingEncoded()
    ensures Encode([]) == []
  {
  }

  // ---------------------------------------------------------------- words and lines

  predicate IsWord(w: Word) {
    w != [] && BLANK !in w && CR !in w
  }

  predicate AllWords(words: seq<Word>) {
    forall w :: w in words ==> IsWord(w)
  }

  // The words of p, the first of which may have begun as `word`.
  function FieldsFrom(p: seq<byte>, word: Word): seq<Word> {
    if p == [] then if word == [] then [] else [word]
    else if p[0] == BLANK then (if word == [] then [] else [word]) + FieldsFrom(p[1..], [])
    else FieldsFrom(p[1..], word + [p[0]])
  }

  function Fields(p: seq<byte>): seq<Word> {
    FieldsFrom(p, [])
  }

  // Text split at every line break: always one part more than there are breaks.
  function Split(t: seq<byte>): (r: seq<seq<byte>>)
    ensures r != []
  {
    if t == [] then [[]]
    else
      var rest := Split(t[1..]);
      if t[0] == CR then [[]] + rest else [[t[0]] + rest[0]] + rest[1..]
  }

  function Join(parts: seq<seq<byte>>, sep: byte): seq<byte> {
    if parts == [] then [] else if |parts| == 1 then parts[0] else parts[0] + [sep] + Join(parts[1..], sep)
  }

  // A line of words, one blank between them.
  function Line(words: seq<Word>): seq<byte> {
    Join(words, BLANK)
  }

  function Flatten<T>(lines: seq<seq<T>>): seq<T> {
    if lines == [] then [] else lines[0] + Flatten(lines[1..])
  }

  // A word too long for a line is cut into full lines and a rest.
  function Chunks(w: Word): seq<Word>
    decreases |w|
  {
    if |w| <= WIDTH then [w] else [w[..WIDTH]] + Chunks(w[WIDTH..])
  }

  function AllChunks(words: seq<Word>): seq<Word> {
    if words == [] then [] else Chunks(words[0]) + AllChunks(words[1..])
  }

  function Total(words: seq<Word>): nat {
    if words == [] then 0 else 1 + |words[0]| + Total(words[1..])
  }

  // The greedy fill: the lines made of `words` when `line` has been begun.
  function Fill(words: seq<Word>, line: seq<Word>): seq<seq<Word>>
    decreases Total(words), |line|
  {
    if words == [] then [line]
    else
      var w := words[0];
      if line != [] && |Line(line)| + 1 + |w| > WIDTH then [line] + Fill(words, [])
      else if |w| > WIDTH then [[w[..WIDTH]]] + Fill([w[WIDTH..]] + words[1..], [])
      else Fill(words[1..], line + [w])
  }

  function Texts(lines: seq<seq<Word>>): seq<seq<byte>> {
    seq(|lines|, i requires 0 <= i < |lines| => Line(lines[i]))
  }

  function WrapParagraph(p: seq<byte>): seq<seq<byte>> {
    Texts(Fill(Fields(p), []))
  }

  function WrapAll(paragraphs: seq<seq<byte>>): seq<seq<byte>> {
    if paragraphs == [] then [] else WrapParagraph(paragraphs[0]) + WrapAll(paragraphs[1..])
  }

  function Wrap(t: seq<byte>): seq<byte> {
    Join(WrapAll(Split(t)), CR)
  }

  // ---------------------------------------------------------------- facts about text

  lemma {:induction false} FieldsAreWords(p: seq<byte>, word: Word)
    requires CR !in p && BLANK !in word && CR !in word
    ensures AllWords(FieldsFrom(p, word))
  {
    if p != [] {
      FieldsAreWords(p[1..], if p[0] == BLANK then [] else word + [p[0]]);
    }
  }

  lemma {:induction false} FieldsAfterWord(w: Word, p: seq<byte>, word: Word)
    requires BLANK !in w
    ensures FieldsFrom(w + p, word) == FieldsFrom(p, word + w)
  {
    if w == [] {
      assert w + p == p && word + w == word;
    } else {
      assert (w + p)[0] == w[0] && w[0] in w && (w + p)[1..] == w[1..] + p;
      FieldsAfterWord(w[1..], p, word + [w[0]]);
      assert word + [w[0]] + w[1..] == word + w;
    }
  }

  // Splitting a line of words gives the words back.
  lemma {:induction false} FieldsOfLine(words: seq<Word>)
    requires AllWords(words)
    ensures Fields(Line(words)) == words
  {
    if words != [] {
      var w := words[0];
      assert w in words;
      if |words| == 1 {
        assert w + [] == w && [] + w == w;
        FieldsAfterWord(w, [], []);
      } else {
        var rest := [BLANK] + Line(words[1..]);
        assert Line(words) == w + rest;
        assert [] + w == w;
        FieldsAfterWord(w, rest, []);
        assert rest[1..] == Line(words[1..]);
        FieldsOfLine(words[1..]);
      }
    }
  }

  lemma {:induction false} LineAppend(line: seq<Word>, w: Word)
    ensures Line(line + [w]) == if line == [] then w else Line(line) + [BLANK] + w
  {
    if line == [] {
      assert line + [w] == [w];
    } else {
      assert (line + [w])[1..] == line[1..] + [w];
      LineAppend(line[1..], w);
      if |line| == 1 {
        assert line[1..] + [w] == [w];
      } else {
        assert Line(line) == line[0] + [BLANK] + Line(line[1..]);
      }
    }
  }

  lemma {:induction false} LineHasNoBreak(words: seq<Word>)
    requires AllWords(words)
    ensures CR !in Line(words)
  {
    if words != [] {
      assert words[0] in words;
      LineHasNoBreak(words[1..]);
    }
  }

  lemma {:induction false} SplitLine(line: seq<byte>)
    requires CR !in line
    ensures Split(line) == [line]
  {
    if line != [] {
      SplitLine(line[1..]);
      assert line == [line[0]] + line[1..];
    }
  }

  // The parts of a text with one more byte in front.
  function Ahead(b: byte, parts: seq<seq<byte>>): seq<seq<byte>>
    requires parts != []
  {
    if b == CR then [[]] + parts else [[b] + parts[0]] + parts[1..]
  }

  lemma AheadParts(b: byte, a: seq<seq<byte>>, later: seq<seq<byte>>)
    requires a != []
    ensures Ahead(b, a + later) == Ahead(b, a) + later
  {
    assert (a + later)[1..] == a[1..] + later;
  }

  lemma Concat(a: seq<seq<byte>>, b: seq<seq<byte>>, c: seq<seq<byte>>)
    ensures a + (b + c) == a + b + c
  {
  }

  lemma {:induction false} SplitBreak(a: seq<byte>, b: seq<byte>)
    ensures Split(a + [CR] + b) == Split(a) + Split(b)
  {
    var t := a + [CR] + b;
    if a == [] {
      assert t == [CR] + b && t[1..] == b;
    } else {
      assert t[0] == a[0] && t[1..] == a[1..] + [CR] + b;
      SplitBreak(a[1..], b);
      var rest, later := Split(a[1..]), Split(b);
      assert Split(t[1..]) == rest + later;
      assert Split(a) == Ahead(a[0], rest) && Split(t) == Ahead(a[0], rest + later);
      hide Split, Ahead;
      AheadParts(a[0], rest, later);
    }
  }

  lemma {:induction false} SplitJoin(lines: seq<seq<byte>>)
    requires lines != [] && forall l :: l in lines ==> CR !in l
    ensures Split(Join(lines, CR)) == lines
  {
    assert lines[0] in lines;
    SplitLine(lines[0]);
    if |lines| == 1 {
      assert Join(lines, CR) == lines[0];
    } else {
      assert Join(lines, CR) == lines[0] + [CR] + Join(lines[1..], CR);
      SplitBreak(lines[0], Join(lines[1..], CR));
      SplitJoin(lines[1..]);
    }
  }

  lemma {:induction false} SplitHasNoBreak(t: seq<byte>)
    ensures forall p :: p in Split(t) ==> CR !in p
  {
    if t != [] {
      SplitHasNoBreak(t[1..]);
      var rest := Split(t[1..]);
      assert rest[0] in rest;
    }
  }

  lemma {:induction false} WrapAllParts(a: seq<seq<byte>>, b: seq<seq<byte>>)
    ensures WrapAll(a + b) == WrapAll(a) + WrapAll(b)
  {
    if a == [] {
      assert a + b == b;
    } else {
      assert (a + b)[1..] == a[1..] + b;
      WrapAllParts(a[1..], b);
    }
  }

  lemma {:induction false} JoinParts(a: seq<seq<byte>>, b: seq<seq<byte>>, sep: byte)
    requires a != [] && b != []
    ensures Join(a + b, sep) == Join(a, sep) + [sep] + Join(b, sep)
  {
    assert (a + b)[1..] == a[1..] + b;
    if |a| == 1 {
      assert a[1..] + b == b;
    } else {
      JoinParts(a[1..], b, sep);
    }
  }

  lemma {:induction false} WrapAllNonempty(paragraphs: seq<seq<byte>>)
    requires paragraphs != []
    ensures WrapAll(paragraphs) != []
  {
    FillNonempty(Fields(paragraphs[0]), []);
  }

  lemma {:induction false} FillNonempty(words: seq<Word>, line: seq<Word>)
    ensures Fill(words, line) != []
    decreases Total(words)
  {
    if words != [] && !(line != [] && |Line(line)| + 1 + |words[0]| > WIDTH) && |words[0]| <= WIDTH {
      FillNonempty(words[1..], line + [words[0]]);
    }
  }

  // Paragraph breaks are kept: text around a break is wrapped on its own.
  lemma BreaksKept(a: seq<byte>, b: seq<byte>)
    ensures Wrap(a + [CR] + b) == Wrap(a) + [CR] + Wrap(b)
  {
    SplitBreak(a, b);
    WrapAllParts(Split(a), Split(b));
    WrapAllNonempty(Split(a));
    WrapAllNonempty(Split(b));
    JoinParts(WrapAll(Split(a)), WrapAll(Split(b)), CR);
  }

  // ---------------------------------------------------------------- width and words

  lemma CutParts(w: Word)
    requires IsWord(w) && |w| > WIDTH
    ensures IsWord(w[..WIDTH]) && IsWord(w[WIDTH..]) && Chunks(w) == [w[..WIDTH]] + Chunks(w[WIDTH..])
  {
  }

  lemma CutWord(words: seq<Word>)
    requires words != [] && AllWords(words) && |words[0]| > WIDTH
    ensures var first, rest := words[0][..WIDTH], [words[0][WIDTH..]] + words[1..];
            && AllWords(rest) && IsWord(first) && Line([first]) == first
            && AllChunks(words) == [first] + AllChunks(rest)
  {
    var w := words[0];
    var first, rest := w[..WIDTH], [w[WIDTH..]] + words[1..];
    assert w in words;
    CutParts(w);
    hide IsWord, Chunks;
    assert rest[1..] == words[1..];
    assert AllChunks(words) == Chunks(w) + AllChunks(words[1..]) && AllChunks(rest) == Chunks(w[WIDTH..]) + AllChunks(words[1..]);
    hide AllChunks;
    Concat([first], Chunks(w[WIDTH..]), AllChunks(words[1..]));
  }

  // The lines filled hold the words in order, and every one of them fits.
  ghost predicate Kept(words: seq<Word>, line: seq<Word>) {
    var lines := Fill(words, line);
    && Flatten(lines) == line + AllChunks(words)
    && (forall l :: l in lines ==> |Line(l)| <= WIDTH && AllWords(l))
  }

  lemma KeptFlush(words: seq<Word>, line: seq<Word>)
    requires words != [] && line != [] && |Line(line)| + 1 + |words[0]| > WIDTH
    requires AllWords(line) && |Line(line)| <= WIDTH && Kept(words, [])
    ensures Kept(words, line)
  {
    assert Fill(words, line) == [line] + Fill(words, []);
    hide Line, AllWords, Fill, AllChunks, Flatten;
    FlattenFirst(line, Fill(words, []));
    assert line + ([] + AllChunks(words)) == line + AllChunks(words);
  }

  lemma ChunksNext(words: seq<Word>)
    requires words != [] && |words[0]| <= WIDTH
    ensures AllChunks(words) == [words[0]] + AllChunks(words[1..])
  {
  }

  lemma KeptTake(words: seq<Word>, line: seq<Word>)
    requires words != [] && |words[0]| <= WIDTH && (line != [] ==> |Line(line)| + 1 + |words[0]| <= WIDTH)
    requires Kept(words[1..], line + [words[0]])
    ensures Kept(words, line)
  {
    FillTakes(words, line);
    ChunksNext(words);
    hide Line, AllWords, Fill, Flatten, AllChunks;
    assert line + [words[0]] + AllChunks(words[1..]) == line + AllChunks(words);
  }

  lemma KeptCut(words: seq<Word>)
    requires words != [] && AllWords(words) && |words[0]| > WIDTH
    requires Kept([words[0][WIDTH..]] + words[1..], [])
    ensures Kept(words, [])
  {
    var first, rest := words[0][..WIDTH], [words[0][WIDTH..]] + words[1..];
    CutWord(words);
    hide Line, IsWord, AllChunks;
    FlattenFirst([first], Fill(rest, []));
    assert [first] + ([] + AllChunks(rest)) == [] + AllChunks(words);
  }

  lemma KeptNone(line: seq<Word>)
    requires AllWords(line) && |Line(line)| <= WIDTH
    ensures Kept([], line)
  {
    assert Flatten([line]) == line + Flatten<Word>([]);
  }

  // Every line fits, and the lines hold the words in order: only words too long for a
  // line are cut.
  lemma {:induction false} FillKeepsWords(words: seq<Word>, line: seq<Word>)
    requires AllWords(words) && AllWords(line) && |Line(line)| <= WIDTH
    ensures Kept(words, line)
    decreases Total(words), |line|
  {
    hide Kept, IsWord, Fill;
    if words == [] {
      KeptNone(line);
    } else {
      var w := words[0];
      assert w in words;
      LineEmpty(line);
      if line != [] && |Line(line)| + 1 + |w| > WIDTH {
        FillKeepsWords(words, []);
        KeptFlush(words, line);
      } else if |w| > WIDTH {
        CutWord(words);
        FillKeepsWords([w[WIDTH..]] + words[1..], []);
        KeptCut(words);
        assert line == [];
      } else {
        LineAppend(line, w);
        FillKeepsWords(words[1..], line + [w]);
        KeptTake(words, line);
      }
    }
  }

  lemma FlattenFirst<T>(line: seq<T>, lines: seq<seq<T>>)
    ensures Flatten([line] + lines) == line + Flatten(lines)
  {
    assert ([line] + lines)[1..] == lines;
  }

  lemma {:induction false} FlattenParts<T>(a: seq<seq<T>>, b: seq<seq<T>>)
    ensures Flatten(a + b) == Flatten(a) + Flatten(b)
  {
    if a == [] {
      assert a + b == b;
    } else {
      assert (a + b)[1..] == a[1..] + b;
      FlattenParts(a[1..], b);
    }
  }

  function AllFields(lines: seq<seq<byte>>): seq<Word> {
    if lines == [] then [] else Fields(lines[0]) + AllFields(lines[1..])
  }

  lemma {:induction false} FieldsOfTexts(lines: seq<seq<Word>>)
    requires forall l :: l in lines ==> AllWords(l)
    ensures AllFields(Texts(lines)) == Flatten(lines)
  {
    if lines != [] {
      assert lines[0] in lines;
      FieldsOfLine(lines[0]);
      assert Texts(lines)[1..] == Texts(lines[1..]);
      FieldsOfTexts(lines[1..]);
    }
  }

  // A wrapped paragraph: no line is too wide, and its words are those of the paragraph,
  // cut only where a word alone is too long for a line.
  lemma ParagraphWords(p: seq<byte>)
    requires CR !in p
    ensures forall l :: l in WrapParagraph(p) ==> |l| <= 39 && CR !in l && Line(Fields(l)) == l
    ensures AllFields(WrapParagraph(p)) == AllChunks(Fields(p))
    ensures (forall w :: w in Fields(p) ==> |w| <= 39) ==> AllFields(WrapParagraph(p)) == Fields(p)
  {
    FieldsAreWords(p, []);
    FillKeepsWords(Fields(p), []);
    var lines := Fill(Fields(p), []);
    FieldsOfTexts(lines);
    forall l | l in WrapParagraph(p)
      ensures |l| <= WIDTH && CR !in l && Line(Fields(l)) == l
    {
      var i :| 0 <= i < |lines| && l == Line(lines[i]);
      LineHasNoBreak(lines[i]);
      FieldsOfLine(lines[i]);
    }
    assert [] + AllChunks(Fields(p)) == AllChunks(Fields(p));
    if forall w :: w in Fields(p) ==> |w| <= WIDTH {
      ShortChunks(Fields(p));
    }
  }

  lemma {:induction false} ShortChunks(words: seq<Word>)
    requires forall w :: w in words ==> |w| <= WIDTH
    ensures AllChunks(words) == words
  {
    if words != [] {
      assert words[0] in words;
      ShortChunks(words[1..]);
    }
  }

  // The lines of wrapped text.
  lemma {:induction false} WrappedLines(paragraphs: seq<seq<byte>>)
    requires forall p :: p in paragraphs ==> CR !in p
    ensures forall l :: l in WrapAll(paragraphs) ==> |l| <= WIDTH && CR !in l && Line(Fields(l)) == l
  {
    if paragraphs != [] {
      assert paragraphs[0] in paragraphs;
      ParagraphWords(paragraphs[0]);
      WrappedLines(paragraphs[1..]);
    }
  }

  // Every line of wrapped text fits the screen.
  lemma LinesFit(t: seq<byte>)
    ensures forall l :: l in Split(Wrap(t)) ==> |l| <= 39
    ensures Split(Wrap(t)) == WrapAll(Split(t))
  {
    SplitHasNoBreak(t);
    WrappedLines(Split(t));
    WrapAllNonempty(Split(t));
    SplitJoin(WrapAll(Split(t)));
  }

  // Bytes that show: everything but blanks and line breaks.
  function Ink(t: seq<byte>): seq<byte> {
    if t == [] then [] else (if t[0] == BLANK || t[0] == CR then [] else [t[0]]) + Ink(t[1..])
  }

  lemma {:induction false} InkParts(a: seq<byte>, b: seq<byte>)
    ensures Ink(a + b) == Ink(a) + Ink(b)
  {
    if a == [] {
      assert a + b == b;
    } else {
      assert (a + b)[0] == a[0] && (a + b)[1..] == a[1..] + b;
      InkParts(a[1..], b);
    }
  }

  lemma FieldsNext(p: seq<byte>, word: Word)
    requires p != [] && CR !in p && CR !in word && BLANK !in word
    ensures if p[0] == BLANK then
              FieldsFrom(p, word) == (if word == [] then [] else [word]) + FieldsFrom(p[1..], []) && Ink(p) == Ink(p[1..])
            else
              FieldsFrom(p, word) == FieldsFrom(p[1..], word + [p[0]]) && Ink(p) == [p[0]] + Ink(p[1..])
  {
    assert [] + Ink(p[1..]) == Ink(p[1..]);
  }

  lemma {:induction false} InkOfFields(p: seq<byte>, word: Word)
    requires CR !in p && CR !in word && BLANK !in word
    ensures Flatten(FieldsFrom(p, word)) == word + Ink(p)
  {
    if p == [] {
      if word != [] {
        assert Flatten([word]) == word + Flatten<byte>([]);
      }
    } else {
      FieldsNext(p, word);
      hide FieldsFrom, Ink, Flatten;
      if p[0] == BLANK {
        InkOfFields(p[1..], []);
        var rest := FieldsFrom(p[1..], []);
        assert [] + rest == rest && [] + Ink(p[1..]) == Ink(p[1..]);
        FlattenFirst(word, rest);
      } else {
        InkOfFields(p[1..], word + [p[0]]);
        assert word + [p[0]] + Ink(p[1..]) == word + ([p[0]] + Ink(p[1..]));
      }
    }
  }

  lemma {:induction false} ChunksFlat(w: Word)
    ensures Flatten(Chunks(w)) == w
    decreases |w|
  {
    if |w| > WIDTH {
      ChunksFlat(w[WIDTH..]);
      FlattenFirst(w[..WIDTH], Chunks(w[WIDTH..]));
    } else {
      assert Flatten([w]) == w + Flatten<byte>([]);
    }
  }

  lemma {:induction false} AllChunksFlat(words: seq<Word>)
    ensures Flatten(AllChunks(words)) == Flatten(words)
  {
    if words != [] {
      ChunksFlat(words[0]);
      AllChunksFlat(words[1..]);
      FlattenParts(Chunks(words[0]), AllChunks(words[1..]));
    }
  }

  lemma {:induction false} InkOfLines(lines: seq<seq<byte>>)
    requires forall l :: l in lines ==> CR !in l
    ensures Ink(Join(lines, CR)) == Flatten(AllFields(lines))
  {
    if lines != [] {
      assert lines[0] in lines;
      InkOfFields(lines[0], []);
      assert [] + Ink(lines[0]) == Ink(lines[0]);
      InkOfLines(lines[1..]);
      FlattenParts(Fields(lines[0]), AllFields(lines[1..]));
      InkOfJoin(lines);
    }
  }

  lemma InkOfJoin(lines: seq<seq<byte>>)
    requires lines != []
    ensures Ink(Join(lines, CR)) == Ink(lines[0]) + Ink(Join(lines[1..], CR))
  {
    if |lines| == 1 {
      assert lines[1..] == [] && Ink([]) == [];
      assert Ink(lines[0]) + [] == Ink(lines[0]);
    } else {
      var rest := Join(lines[1..], CR);
      InkParts(lines[0] + [CR], rest);
      InkParts(lines[0], [CR]);
      assert Ink([CR]) == [] && Ink(lines[0]) + [] == Ink(lines[0]);
      hide Ink;
      assert Join(lines, CR) == lines[0] + [CR] + rest;
    }
  }

  lemma {:induction false} AllFieldsParts(a: seq<seq<byte>>, b: seq<seq<byte>>)
    ensures AllFields(a + b) == AllFields(a) + AllFields(b)
  {
    if a == [] {
      assert a + b == b;
    } else {
      assert (a + b)[1..] == a[1..] + b;
      AllFieldsParts(a[1..], b);
    }
  }

  lemma {:induction false} InkOfWrapAll(paragraphs: seq<seq<byte>>)
    requires forall p :: p in paragraphs ==> CR !in p
    ensures Flatten(AllFields(WrapAll(paragraphs))) == Flatten(AllFields(paragraphs))
  {
    if paragraphs != [] {
      var p := paragraphs[0];
      assert p in paragraphs;
      ParagraphWords(p);
      AllChunksFlat(Fields(p));
      InkOfWrapAll(paragraphs[1..]);
      AllFieldsParts(WrapParagraph(p), WrapAll(paragraphs[1..]));
      FlattenParts(AllFields(WrapParagraph(p)), AllFields(WrapAll(paragraphs[1..])));
      FlattenParts(Fields(p), AllFields(paragraphs[1..]));
    }
  }

  lemma {:induction false} JoinSplit(t: seq<byte>)
    ensures Join(Split(t), CR) == t
  {
    if t != [] {
      JoinSplit(t[1..]);
      var rest := Split(t[1..]);
      if t[0] == CR {
        assert Join([[]] + rest, CR) == [] + [CR] + Join(rest, CR) by {
          assert ([[]] + rest)[1..] == rest;
        }
      } else {
        assert Split(t)[1..] == rest[1..];
      }
      assert t == [t[0]] + t[1..];
    }
  }

  // Wrapping moves blanks and breaks only: what shows survives, in order.
  lemma InkSurvives(t: seq<byte>)
    ensures Ink(Wrap(t)) == Ink(t)
  {
    SplitHasNoBreak(t);
    WrappedLines(Split(t));
    InkOfLines(WrapAll(Split(t)));
    InkOfLines(Split(t));
    InkOfWrapAll(Split(t));
    JoinSplit(t);
  }

  // ---------------------------------------------------------------- wrapping again

  lemma {:induction false} LineSplit(a: seq<Word>, b: seq<Word>)
    requires a != [] && b != []
    ensures |Line(a + b)| == |Line(a)| + 1 + |Line(b)|
  {
    JoinParts(a, b, BLANK);
  }

  // Words that fit on the line begun stay on it.
  lemma {:induction false} FillFits(f: seq<Word>, words: seq<Word>, line: seq<Word>)
    requires AllWords(f) && |Line(line + f)| <= WIDTH
    ensures Fill(f + words, line) == Fill(words, line + f)
    decreases |f|
  {
    if f == [] {
      assert f + words == words && line + f == line;
    } else {
      var w := f[0];
      assert w in f && (f + words)[0] == w && (f + words)[1..] == f[1..] + words;
      assert line + f == (line + [w]) + f[1..];
      FirstFits(line, f);
      FillFits(f[1..], words, line + [w]);
    }
  }

  lemma FirstFits(line: seq<Word>, f: seq<Word>)
    requires f != [] && |Line(line + f)| <= WIDTH
    ensures |f[0]| <= WIDTH && (line != [] ==> |Line(line)| + 1 + |f[0]| <= WIDTH)
    ensures |Line(line + [f[0]])| <= WIDTH
  {
    LineAppend(line, f[0]);
    if |f| == 1 {
      assert f == [f[0]];
    } else {
      LineSplit(line + [f[0]], f[1..]);
      assert line + f == (line + [f[0]]) + f[1..];
    }
  }

  lemma WrapLineAgain(l: seq<byte>)
    requires |l| <= WIDTH && CR !in l && Line(Fields(l)) == l
    ensures WrapParagraph(l) == [l]
  {
    var words := Fields(l);
    FieldsAreWords(l, []);
    assert [] + words == words && words + [] == words;
    FillFits(words, [], []);
    assert Fill(words, []) == [words];
  }

  lemma {:induction false} WrapLinesAgain(lines: seq<seq<byte>>)
    requires forall l :: l in lines ==> |l| <= WIDTH && CR !in l && Line(Fields(l)) == l
    ensures WrapAll(lines) == lines
  {
    if lines != [] {
      assert lines[0] in lines;
      WrapLineAgain(lines[0]);
      WrapLinesAgain(lines[1..]);
    }
  }

  // Wrapping wrapped bytes again changes nothing.
  lemma WrapTwice(t: seq<byte>)
    ensures Wrap(Wrap(t)) == Wrap(t)
  {
    LinesFit(t);
    SplitHasNoBreak(t);
    WrappedLines(Split(t));
    WrapLinesAgain(WrapAll(Split(t)));
  }

  // ---------------------------------------------------------------- fewest lines

  // The words of f start at most one more line after the line begun.
  ghost predicate OneMore(f: seq<Word>, words: seq<Word>, line: seq<Word>) {
    Fill(f + words, line) == Fill(words, line + f)
    || exists n :: 0 <= n < |f| && Fill(f + words, line) == [line + f[..n]] + Fill(words, f[n..])
  }

  lemma OneMoreNext(f: seq<Word>, words: seq<Word>, line: seq<Word>)
    requires f != [] && Fill(f + words, line) == Fill(f[1..] + words, line + [f[0]])
    requires OneMore(f[1..], words, line + [f[0]])
    ensures OneMore(f, words, line)
  {
    hide Fill;
    var g, begun := f[1..], line + [f[0]];
    assert begun + g == line + f;
    if Fill(g + words, begun) != Fill(words, begun + g) {
      var n :| 0 <= n < |g| && Fill(g + words, begun) == [begun + g[..n]] + Fill(words, g[n..]);
      assert begun + g[..n] == line + f[..n + 1] && g[n..] == f[n + 1..];
    }
  }

  lemma OneMoreFlush(f: seq<Word>, words: seq<Word>, line: seq<Word>)
    requires f != [] && Fill(f + words, line) == [line] + Fill(words, f)
    ensures OneMore(f, words, line)
  {
    assert line + f[..0] == line && f[0..] == f;
  }

  lemma OneMoreFits(f: seq<Word>, words: seq<Word>, line: seq<Word>)
    requires Fill(f + words, line) == Fill(words, line + f)
    ensures OneMore(f, words, line)
  {
  }

  // Words that fit on one line do, whatever line has been begun.
  lemma {:induction false} FillOne(f: seq<Word>, words: seq<Word>, line: seq<Word>)
    requires AllWords(f) && f != [] && |Line(f)| <= WIDTH
    ensures OneMore(f, words, line)
    decreases |f|
  {
    hide Line, IsWord, OneMore;
    var w := f[0];
    assert w in f && (f + words)[0] == w && (f + words)[1..] == f[1..] + words;
    assert [] + f == f;
    FirstFits([], f);
    if line != [] && |Line(line)| + 1 + |w| > WIDTH {
      FillFits(f, words, []);
      OneMoreFlush(f, words, line);
    } else if |f| == 1 {
      assert f == [w] && f[1..] + words == words;
      OneMoreFits(f, words, line);
    } else {
      assert [w] + f[1..] == f;
      LineSplit([w], f[1..]);
      FillOne(f[1..], words, line + [w]);
      OneMoreNext(f, words, line);
    }
  }

  lemma {:induction false} FillFewest(breaking: seq<seq<Word>>, line: seq<Word>)
    requires forall l :: l in breaking ==> AllWords(l) && |Line(l)| <= WIDTH
    ensures |Fill(Flatten(breaking), line)| <= 1 + |breaking|
    decreases |breaking|
  {
    if breaking != [] {
      var f, words := breaking[0], Flatten(breaking[1..]);
      assert f in breaking;
      if f == [] {
        assert f + words == words;
        FillFewest(breaking[1..], line);
      } else {
        FillOne(f, words, line);
        if Fill(f + words, line) == Fill(words, line + f) {
          FillFewest(breaking[1..], line + f);
        } else {
          var n :| 0 <= n < |f| && Fill(f + words, line) == [line + f[..n]] + Fill(words, f[n..]);
          FillFewest(breaking[1..], f[n..]);
        }
      }
    }
  }

  lemma {:induction false} FieldsShrink(p: seq<byte>, word: Word)
    requires CR !in p && BLANK !in word && CR !in word
    ensures |Line(FieldsFrom(p, word))| <= |word| + |p|
  {
    if p != [] {
      if p[0] == BLANK {
        FieldsShrink(p[1..], []);
        var rest := FieldsFrom(p[1..], []);
        assert [] + rest == rest;
        if word != [] {
          if rest == [] {
            assert [word] + rest == [word];
          } else {
            LineSplit([word], rest);
          }
        }
      } else {
        FieldsShrink(p[1..], word + [p[0]]);
      }
    }
  }

  // The words on each line of a breaking.
  function Breaking(lines: seq<seq<byte>>): seq<seq<Word>> {
    seq(|lines|, i requires 0 <= i < |lines| => Fields(lines[i]))
  }

  lemma {:induction false} BreakingFlat(lines: seq<seq<byte>>)
    ensures Flatten(Breaking(lines)) == AllFields(lines)
  {
    if lines != [] {
      assert Breaking(lines)[1..] == Breaking(lines[1..]);
      BreakingFlat(lines[1..]);
    }
  }

  // For a paragraph without overlong words, no breaking into lines that fit has fewer
  // lines: any lines at all that hold the same words in the same order.
  lemma FewestLines(p: seq<byte>, lines: seq<seq<byte>>)
    requires CR !in p && forall w :: w in Fields(p) ==> |w| <= 39
    requires lines != [] && forall l :: l in lines ==> |l| <= 39 && CR !in l
    requires AllFields(lines) == Fields(p)
    ensures |WrapParagraph(p)| <= |lines|
  {
    var breaking := Breaking(lines);
    BreakingFlat(lines);
    forall l | l in breaking
      ensures AllWords(l) && |Line(l)| <= WIDTH
    {
      var i :| 0 <= i < |lines| && l == Fields(lines[i]);
      assert lines[i] in lines;
      FieldsAreWords(lines[i], []);
      FieldsShrink(lines[i], []);
    }
    var f, words := breaking[0], Flatten(breaking[1..]);
    assert [] + f == f;
    FillFits(f, words, []);
    FillFewest(breaking[1..], f);
  }

  // ---------------------------------------------------------------- the wrapper as it runs

  // The parts split off so far, the part begun, and the parts still to come.
  function Parts(parts: seq<seq<byte>>, part: seq<byte>, rest: seq<byte>): seq<seq<byte>> {
    parts + [part + Split(rest)[0]] + Split(rest)[1..]
  }

  lemma PartsNext(parts: seq<seq<byte>>, part: seq<byte>, rest: seq<byte>)
    requires rest != []
    ensures Parts(parts, part, rest) ==
            if rest[0] == CR then Parts(parts + [part], [], rest[1..]) else Parts(parts, part + [rest[0]], rest[1..])
  {
    var later := Split(rest[1..]);
    if rest[0] == CR {
      assert Split(rest) == [[]] + later && part + [] == part;
      assert ([[]] + later)[1..] == later && [] + later[0] == later[0];
      assert parts + [part] + [later[0]] + later[1..] == parts + [part] + later;
    } else {
      assert part + ([rest[0]] + later[0]) == part + [rest[0]] + later[0];
      assert Split(rest)[1..] == later[1..];
    }
  }

  method SplitBreaks(t: seq<byte>) returns (parts: seq<seq<byte>>)
    ensures parts == Split(t)
  {
    parts := [];
    var rest, part := t, [];
    assert [] + Split(t)[0] == Split(t)[0];
    assert Parts([], [], t) == Split(t);
    while rest != []
      invariant Parts(parts, part, rest) == Split(t)
      decreases |rest|
    {
      PartsNext(parts, part, rest);
      if rest[0] == CR {
        parts := parts + [part];
        part := [];
      } else {
        part := part + [rest[0]];
      }
      rest := rest[1..];
    }
    assert part + [] == part;
    parts := parts + [part];
  }

  method SplitWords(p: seq<byte>) returns (words: seq<Word>)
    ensures words == Fields(p)
  {
    words := [];
    var rest, word := p, [];
    while rest != []
      invariant words + FieldsFrom(rest, word) == Fields(p)
      decreases |rest|
    {
      if rest[0] != BLANK {
        word := word + [rest[0]];
      } else if word != [] {
        words, word := words + [word], [];
      }
      rest := rest[1..];
    }
    if word != [] {
      words := words + [word];
    }
  }

  lemma TextsFirst(line: seq<Word>, lines: seq<seq<Word>>)
    ensures Texts([line] + lines) == [Line(line)] + Texts(lines)
  {
  }

  lemma FillCut(words: seq<Word>)
    requires words != [] && |words[0]| > WIDTH
    ensures Texts(Fill(words, [])) == [words[0][..WIDTH]] + Texts(Fill([words[0][WIDTH..]] + words[1..], []))
  {
    var first, rest := words[0][..WIDTH], [words[0][WIDTH..]] + words[1..];
    assert Line([first]) == first;
    TextsFirst([first], Fill(rest, []));
  }

  // Cuts full lines off a word; what is left of it fits on a line.
  method CutLines(word: Word, ghost words: seq<Word>) returns (out: seq<seq<byte>>, rest: Word)
    requires words != [] && words[0] == word && IsWord(word)
    ensures |rest| <= WIDTH && IsWord(rest)
    ensures Texts(Fill(words, [])) == out + Texts(Fill([rest] + words[1..], []))
    ensures |word| <= WIDTH ==> out == [] && rest == word
  {
    out, rest := [], word;
    assert words == [word] + words[1..];
    while |rest| > WIDTH
      invariant IsWord(rest) && Texts(Fill(words, [])) == out + Texts(Fill([rest] + words[1..], []))
      invariant |word| <= WIDTH ==> out == [] && rest == word
      decreases |rest|
    {
      FillCut([rest] + words[1..]);
      assert ([rest] + words[1..])[1..] == words[1..];
      out := out + [rest[..WIDTH]];
      rest := rest[WIDTH..];
    }
  }

  lemma FillTakes(words: seq<Word>, line: seq<Word>)
    requires words != [] && |words[0]| <= WIDTH && (line != [] ==> |Line(line)| + 1 + |words[0]| <= WIDTH)
    ensures Fill(words, line) == Fill(words[1..], line + [words[0]])
  {
  }

  lemma FillFlushes(words: seq<Word>, line: seq<Word>)
    requires words != [] && line != [] && |Line(line)| + 1 + |words[0]| > WIDTH
    ensures Texts(Fill(words, line)) == [Line(line)] + Texts(Fill(words, []))
  {
    TextsFirst(line, Fill(words, []));
  }

  lemma LineOfNone()
    ensures Line([]) == []
  {
  }

  lemma LastLine(line: seq<Word>)
    ensures Texts(Fill([], line)) == [Line(line)]
  {
  }

  // One word: the line is flushed when the word does not fit, a word too long for a
  // line is cut, and what is left of it goes on the line.
  method AddWord(line: seq<byte>, word: Word, ghost begun: seq<Word>, ghost rest: seq<Word>)
    returns (out: seq<seq<byte>>, next: seq<byte>, ghost filled: seq<Word>)
    requires rest != [] && rest[0] == word && IsWord(word) && line == Line(begun) && AllWords(begun)
    ensures next == Line(filled) && AllWords(filled)
    ensures Texts(Fill(rest, begun)) == out + Texts(Fill(rest[1..], filled))
  {
    LineEmpty(begun);
    hide Fill, Texts, Line, Join, IsWord;
    out, next, filled := [], line, begun;
    assert [] + Texts(Fill(rest, begun)) == Texts(Fill(rest, begun));
    if |next| > 0 && |next| + 1 + |word| > WIDTH {
      FillFlushes(rest, begun);
      out := [next];
      next, filled := [], [];
      LineOfNone();
    }
    var cut, last := CutLines(word, rest);
    ghost var tail := [last] + rest[1..];
    assert filled != [] ==> cut == [] && tail == rest;
    assert Texts(Fill(rest, filled)) == cut + Texts(Fill(tail, filled));
    Concat(out, cut, Texts(Fill(tail, filled)));
    out := out + cut;
    assert tail[1..] == rest[1..];
    FillTakes(tail, filled);
    LineAppend(filled, last);
    if next != [] {
      next := next + [BLANK];
    }
    next := next + last;
    filled := filled + [last];
  }

  // The loop over the words of a paragraph.
  method WrapWords(p: seq<byte>) returns (out: seq<seq<byte>>)
    requires CR !in p
    ensures out == WrapParagraph(p)
  {
    out := [];
    var words := SplitWords(p);
    FieldsAreWords(p, []);
    hide Fill, Texts, Line, IsWord, Fields;
    var line: seq<byte> := [];
    ghost var begun: seq<Word> := [];
    LineOfNone();
    var i := 0;
    assert words[0..] == words;
    while i < |words|
      invariant 0 <= i <= |words| && line == Line(begun) && AllWords(begun)
      invariant out + Texts(Fill(words[i..], begun)) == WrapParagraph(p)
    {
      assert words[i..][0] == words[i] && words[i..][1..] == words[i + 1..] && words[i] in words;
      var added;
      added, line, begun := AddWord(line, words[i], begun, words[i..]);
      out := out + added;
      i := i + 1;
    }
    assert words[i..] == [];
    LastLine(begun);
    out := out + [line];
  }

  lemma LineEmpty(line: seq<Word>)
    requires AllWords(line)
    ensures Line(line) == [] <==> line == []
  {
    if line != [] {
      assert line[0] in line;
    }
  }

  method PetsciiText(text: string) returns (out: seq<byte>)
    ensures out == Wrap(Encode(text))
  {
    var encoded := EncodeText(text);
    var paragraphs := SplitBreaks(encoded);
    SplitHasNoBreak(encoded);
    var lines: seq<seq<byte>> := [];
    var i := 0;
    while i < |paragraphs|
      invariant 0 <= i <= |paragraphs| && lines + WrapAll(paragraphs[i..]) == WrapAll(paragraphs)
    {
      assert paragraphs[i..][1..] == paragraphs[i + 1..] && paragraphs[i] in paragraphs;
      var wrapped := WrapWords(paragraphs[i]);
      assert WrapAll(paragraphs[i..]) == wrapped + WrapAll(paragraphs[i + 1..]);
      hide WrapAll, WrapParagraph;
      Concat(lines, wrapped, WrapAll(paragraphs[i + 1..]));
      lines := lines + wrapped;
      i := i + 1;
    }
    assert lines == WrapAll(paragraphs);
    out := JoinLines(lines);
  }

  method JoinLines(lines: seq<seq<byte>>) returns (out: seq<byte>)
    ensures out == Join(lines, CR)
  {
    out := [];
    var i := |lines|;
    while i > 0
      invariant 0 <= i <= |lines| && out == Join(lines[i..], CR)
    {
      i := i - 1;
      assert lines[i..][1..] == lines[i + 1..];
      out := if i + 1 == |lines| then lines[i] else lines[i] + [CR] + out;
    }
  }
}
