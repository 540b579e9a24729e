/** What the two scanners make of whole lines of text: separators, blanks, quotes and backslashes (src/lib/commandSuggestionSuppression.ts). */
module ShellLines {
  import opened Text
  import opened ShellScanners

  /** Which characters the scanners treat specially. */
  lemma SpecialCharacters(c: char)
    ensures GlyphOf(c).Separator? <==> c == '|' || c == ';' || c == '&'
    ensures GlyphOf(c).Backslash? <==> c == '\\'
    ensures GlyphOf(c).SingleMark? <==> c == '\''
    ensures GlyphOf(c).DoubleMark? <==> c == '"'
    ensures GlyphOf(c).White? <==> IsWhiteSpace(c)
    ensures GlyphOf(' ').White? && GlyphOf('\t').White? && GlyphOf('\n').White? && GlyphOf('\r').White?
  {
  }

  /** Text without any of them. */
  predicate IsPlain(s: string) {
    forall i :: 0 <= i < |s| ==> s[i] !in "|;&\\'\"" && !IsWhiteSpace(s[i])
  }

  // ------------------------------------------------------------------ stretches that mean nothing special

  /** From `st` on, every character of the stretch is part of the text. */
  ghost predicate Inert(st: State, s: Line) { !st.escaped && forall i :: 0 <= i < |s| ==> RoleOf(st, s[i]) == Literal }

  lemma {:induction false} InertWords(st: State, s: Line, rest: Line, current: Line)
    requires Inert(st, s)
    ensures Words(current, Marks(st, s + rest, false)) == Words(current + s, Marks(st, rest, false))
    decreases |s|
  {
    if s == [] {
      assert s + rest == rest && current + s == current;
    } else {
      assert (s + rest)[0] == s[0] && (s + rest)[1..] == s[1..] + rest && Next(st, s[0]) == st;
      WordsStep([], current, st, s + rest);
      InertWords(st, s[1..], rest, current + [s[0]]);
      assert current + [s[0]] + s[1..] == current + s;
    }
  }

  lemma {:induction false} InertPieces(st: State, s: Line, rest: Line, current: Line)
    requires Inert(st, s)
    ensures Pieces(st, current, s + rest) == Pieces(st, current + s, rest)
    decreases |s|
  {
    if s == [] {
      assert s + rest == rest && current + s == current;
    } else {
      assert (s + rest)[0] == s[0] && (s + rest)[1..] == s[1..] + rest && Next(st, s[0]) == st;
      InertPieces(st, s[1..], rest, current + [s[0]]);
      assert current + [s[0]] + s[1..] == current + s;
    }
  }

  lemma PlainIsInert(s: string, st: State)
    requires IsPlain(s) && !st.escaped
    ensures Inert(st, Read(s))
  {
    forall i | 0 <= i < |s| ensures RoleOf(st, Read(s)[i]) == Literal {
      SpecialCharacters(s[i]);
    }
  }

  lemma PlainIsUntrimmed(s: string)
    requires IsPlain(s)
    ensures Trimmed(Read(s)) == Read(s)
  {
    if s != "" {
      assert !IsWhite(Read(s)[0]) && !IsWhite(Read(s)[|s| - 1]);
    }
  }

  lemma ReadParts(a: string, c: char, b: string)
    ensures Read(a + [c] + b) == Read(a) + ([GlyphOf(c)] + Read(b))
  {
  }

  // ------------------------------------------------------------------ separators and blanks

  lemma KeptOne(a: Line, trim: Line -> Line)
    requires trim(a) == a && a != []
    ensures Kept([a], trim) == [a]
  {
    assert [a][1..] == [];
  }

  lemma KeptTwo(a: Line, b: Line, trim: Line -> Line)
    requires trim(a) == a && trim(b) == b && a != [] && b != []
    ensures Kept([a, b], trim) == [a, b]
  {
    KeptOne(b, trim);
    assert [a, b][1..] == [b];
  }

  lemma PieceAtEnd(s: Line, current: Line)
    requires Inert(START, s)
    ensures Pieces(START, current, s) == [current + s]
  {
    InertPieces(START, s, [], current);
    assert s + [] == s;
  }

  lemma PiecesAroundSeparator(a: Line, g: Glyph, b: Line)
    requires Inert(START, a) && g.Separator? && Inert(START, b)
    ensures Pieces(START, [], a + ([g] + b)) == [a, b]
  {
    InertPieces(START, a, [g] + b, []);
    assert [] + a == a && [] + b == b;
    PiecesCons(START, a, g, b);
    PieceAtEnd(b, []);
  }

  /** `|`, `;` and `&` split a line into segments. */
  lemma SeparatorsSplit(a: string, c: char, b: string)
    requires IsPlain(a) && IsPlain(b) && a != "" && b != "" && (c == '|' || c == ';' || c == '&')
    ensures Segments(Read(a + [c] + b)) == [Read(a), Read(b)]
  {
    ReadParts(a, c, b);
    SpecialCharacters(c);
    PlainIsInert(a, START);
    PlainIsInert(b, START);
    PiecesAroundSeparator(Read(a), GlyphOf(c), Read(b));
    PlainIsUntrimmed(a);
    PlainIsUntrimmed(b);
    KeptTwo(Read(a), Read(b), Trimmed);
  }

  lemma PlainWord(s: string, current: Line)
    requires IsPlain(s)
    ensures Words(current, Marks(START, Read(s), false)) == Flushed(current + Read(s))
  {
    PlainIsInert(s, START);
    InertWords(START, Read(s), [], current);
    assert Read(s) + [] == Read(s);
    assert Marks(START, [], false) == [];
  }

  lemma WordsAtBlank(current: Line, g: Glyph, rest: Line)
    requires g.White?
    ensures Words(current, Marks(START, [g] + rest, false)) == Flushed(current) + Words([], Marks(START, rest, false))
  {
    var s := [g] + rest;
    assert s[0] == g && s[1..] == rest && Next(START, g) == START;
    WordsStep([], current, START, s);
    Unprefixed(Words(current, Marks(START, s, false)), Flushed(current), Words([], Marks(START, rest, false)));
  }

  lemma Unprefixed<T>(all: seq<T>, a: seq<T>, b: seq<T>)
    requires [] + all == [] + a + b
    ensures all == a + b
  {
    assert [] + all == all && [] + a == a;
  }

  /** White space splits a segment into words. */
  lemma BlanksSplit(a: string, c: char, b: string)
    requires IsPlain(a) && IsPlain(b) && a != "" && b != "" && IsWhiteSpace(c)
    ensures Tokens(Read(a + [c] + b)) == [Read(a), Read(b)]
  {
    ReadParts(a, c, b);
    SpecialCharacters(c);
    var rest := [GlyphOf(c)] + Read(b);
    PlainIsInert(a, START);
    InertWords(START, Read(a), rest, []);
    assert [] + Read(a) == Read(a) && [] + Read(b) == Read(b);
    WordsAtBlank(Read(a), GlyphOf(c), Read(b));
    PlainWord(b, []);
  }

  // ------------------------------------------------------------------ quotes

  predicate IsMark(q: char) { q == '\'' || q == '"' }

  function Opened(q: char): State { State(if q == '\'' then Single else Double, false) }

  /** Text a quote protects: anything but the mark itself, and inside double marks no backslash. */
  predicate FitsInside(q: char, s: string) { forall i :: 0 <= i < |s| ==> s[i] != q && (q == '"' ==> s[i] != '\\') }

  lemma QuotedIsInert(q: char, s: string)
    requires IsMark(q) && FitsInside(q, s)
    ensures Inert(Opened(q), Read(s))
  {
    forall i | 0 <= i < |s| ensures RoleOf(Opened(q), Read(s)[i]) == Literal {
      SpecialCharacters(s[i]);
    }
  }

  lemma MarkOpensAndCloses(q: char)
    requires IsMark(q)
    ensures var g := GlyphOf(q);
            && RoleOf(START, g) == Markup && Next(START, g) == Opened(q) && RoleOf(Opened(q), g) == Markup && Next(Opened(q), g) == START
  {
    SpecialCharacters(q);
  }

  lemma WordsAtMarkup(current: Line, st: State, g: Glyph, rest: Line)
    requires RoleOf(st, g) == Markup
    ensures Words(current, Marks(st, [g] + rest, false)) == Words(current, Marks(Next(st, g), rest, false))
  {
    var s := [g] + rest;
    assert s[0] == g && s[1..] == rest;
    WordsStep([], current, st, s);
    assert [] + Words(current, Marks(st, s, false)) == Words(current, Marks(st, s, false));
    assert [] + Words(current, Marks(Next(st, g), rest, false)) == Words(current, Marks(Next(st, g), rest, false));
  }

  lemma ReadQuoted(q: char, s: string)
    ensures Read([q] + s + [q]) == [GlyphOf(q)] + (Read(s) + [GlyphOf(q)])
  {
  }

  /** A quoted stretch is one word without its marks, whatever blanks and separators it holds. */
  lemma QuotesMakeOneWord(q: char, s: string)
    requires IsMark(q) && FitsInside(q, s) && s != ""
    ensures Tokens(Read([q] + s + [q])) == [Read(s)]
  {
    var g := GlyphOf(q);
    ReadQuoted(q, s);
    MarkOpensAndCloses(q);
    QuotedIsInert(q, s);
    WordsAtMarkup([], START, g, Read(s) + [g]);
    InertWords(Opened(q), Read(s), [g], []);
    assert [g] == [g] + [] && [] + Read(s) == Read(s);
    WordsAtMarkup(Read(s), Opened(q), g, []);
    assert Marks(START, [], false) == [];
  }

  lemma MarksAreNotBlank(q: char, s: Line)
    requires IsMark(q)
    ensures var quoted := [GlyphOf(q)] + s + [GlyphOf(q)]; Trimmed(quoted) == quoted && quoted != []
  {
    SpecialCharacters(q);
    NoBlankNoTrim([GlyphOf(q)] + s + [GlyphOf(q)], IsWhite);
  }

  lemma NoBlankNoTrim(s: Line, ws: Glyph -> bool)
    requires s != [] && !ws(s[0]) && !ws(s[|s| - 1])
    ensures Trim(s, ws) == s
  {
  }

  /** A quoted stretch is never cut at a separator. */
  lemma QuotesKeepSegment(q: char, s: string)
    requires IsMark(q) && FitsInside(q, s)
    ensures Segments(Read([q] + s + [q])) == [Read([q] + s + [q])]
  {
    var g := GlyphOf(q);
    ReadQuoted(q, s);
    MarkOpensAndCloses(q);
    QuotedIsInert(q, s);
    PiecesCons(START, [], g, Read(s) + [g]);
    assert [] + [g] == [g];
    InertPieces(Opened(q), Read(s), [g], [g]);
    assert [g] == [g] + [];
    PiecesCons(Opened(q), [g] + Read(s), g, []);
    MarksAreNotBlank(q, Read(s));
    assert [g] + (Read(s) + [g]) == [g] + Read(s) + [g];
    KeptOne([g] + Read(s) + [g], Trimmed);
  }

  // ------------------------------------------------------------------ backslashes

  const ESCAPED := State(Unquoted, true)

  lemma WordsAtEscaped(current: Line, g: Glyph, rest: Line)
    ensures Words(current, Marks(ESCAPED, [g] + rest, false)) == Words(current + [g], Marks(START, rest, false))
  {
    var s := [g] + rest;
    assert s[0] == g && s[1..] == rest && Next(ESCAPED, g) == START;
    WordsStep([], current, ESCAPED, s);
    assert [] + Words(current, Marks(ESCAPED, s, false)) == Words(current, Marks(ESCAPED, s, false));
    assert [] + Words(current + [g], Marks(START, rest, false)) == Words(current + [g], Marks(START, rest, false));
  }

  lemma WordsAtEscapedIn(current: Line, quote: Quote, g: Glyph, rest: Line)
    ensures Words(current, Marks(State(quote, true), [g] + rest, false)) == Words(current + [g], Marks(State(quote, false), rest, false))
  {
    var st, s := State(quote, true), [g] + rest;
    assert s[0] == g && s[1..] == rest && Next(st, g) == State(quote, false);
    WordsStep([], current, st, s);
    assert [] + Words(current, Marks(st, s, false)) == Words(current, Marks(st, s, false));
    assert [] + Words(current + [g], Marks(State(quote, false), rest, false)) == Words(current + [g], Marks(State(quote, false), rest, false));
  }

  lemma ReadEscaped(a: string, c: char, b: string)
    ensures Read(['"'] + a + ['\\'] + [c] + b + ['"'])
         == [DoubleMark] + (Read(a) + ([Backslash] + ([GlyphOf(c)] + (Read(b) + [DoubleMark]))))
    ensures Read(a + [c] + b) == Read(a) + [GlyphOf(c)] + Read(b)
  {
  }

  /** Inside double marks too a backslash keeps the next character, even a mark, and disappears. */
  lemma BackslashInsideDoubleMarks(a: string, c: char, b: string)
    requires FitsInside('"', a) && FitsInside('"', b)
    ensures Tokens(Read(['"'] + a + ['\\'] + [c] + b + ['"'])) == [Read(a + [c] + b)]
  {
    var inside, g := Opened('"'), GlyphOf(c);
    var last := [DoubleMark];
    ReadEscaped(a, c, b);
    QuotedIsInert('"', a);
    QuotedIsInert('"', b);
    WordsAtMarkup([], START, DoubleMark, Read(a) + ([Backslash] + ([g] + (Read(b) + last))));
    InertWords(inside, Read(a), [Backslash] + ([g] + (Read(b) + last)), []);
    assert [] + Read(a) == Read(a);
    WordsAtMarkup(Read(a), inside, Backslash, [g] + (Read(b) + last));
    WordsAtEscapedIn(Read(a), Double, g, Read(b) + last);
    InertWords(inside, Read(b), last, Read(a) + [g]);
    assert last == [DoubleMark] + [];
    WordsAtMarkup(Read(a) + [g] + Read(b), inside, DoubleMark, []);
    assert Marks(START, [], false) == [];
  }

  /** A backslash takes the next character into the word, whatever it is, and disappears. */
  lemma BackslashKeepsWord(a: string, c: char, b: string)
    requires IsPlain(a) && IsPlain(b)
    ensures Tokens(Read(a + ['\\'] + ([c] + b))) == [Read(a + [c] + b)]
  {
    ReadParts(a, '\\', [c] + b);
    SpecialCharacters('\\');
    assert Read([c] + b) == [GlyphOf(c)] + Read(b);
    PlainIsInert(a, START);
    InertWords(START, Read(a), [GlyphOf('\\')] + ([GlyphOf(c)] + Read(b)), []);
    assert [] + Read(a) == Read(a);
    WordsAtMarkup(Read(a), START, GlyphOf('\\'), [GlyphOf(c)] + Read(b));
    WordsAtEscaped(Read(a), GlyphOf(c), Read(b));
    PlainWord(b, Read(a) + [GlyphOf(c)]);
    assert Read(a + [c] + b) == Read(a) + [GlyphOf(c)] + Read(b);
  }
}
