/** The two shell-like scanners behind command suggestions (src/lib/commandSuggestionSuppression.ts). */
module ShellScanners {
  import opened Text

  // ------------------------------------------------------------------ the lexical state

  datatype Quote = Unquoted | Single | Double
  datatype State = State(quote: Quote, escaped: bool)

  const START := State(Unquoted, false)

  /** A character as the scanners tell it apart. */
  datatype Glyph = Backslash | SingleMark | DoubleMark | Separator(c: char) | White(c: char) | Plain(c: char)

  type Line = seq<Glyph>

  /** The white space of `\s` and of `trim` in JavaScript. */
  predicate IsWhiteSpace(c: char) {
    || '\t' <= c <= '\r' || c == ' ' || c == '\U{00A0}' || c == '\U{1680}' || '\U{2000}' <= c <= '\U{200A}' || c == '\U{2028}'
    || c == '\U{2029}' || c == '\U{202F}' || c == '\U{205F}' || c == '\U{3000}' || c == '\U{FEFF}'
  }

  function GlyphOf(c: char): Glyph {
    if c == '\\' then Backslash
    else if c == '\'' then SingleMark
    else if c == '"' then DoubleMark
    else if c == '|' || c == ';' || c == '&' then Separator(c)
    else if IsWhiteSpace(c) then White(c)
    else Plain(c)
  }

  function Read(s: string): Line { seq(|s|, i requires 0 <= i < |s| => GlyphOf(s[i])) }

  /** Reading loses nothing: what is said below about lines is said about strings. */
  lemma ReadIsInjective(s: string, t: string)
    ensures Read(s) == Read(t) <==> s == t
  {
    if Read(s) == Read(t) {
      forall i | 0 <= i < |s| ensures s[i] == t[i] {
        assert Read(s)[i] == GlyphOf(s[i]) && Read(t)[i] == GlyphOf(t[i]);
      }
    }
  }

  predicate IsWhite(c: Glyph) { c.White? }

  /** What a character is for the scanners: part of the text, markup, unprotected white space or an unprotected separator. */
  datatype Role = Literal | Markup | Blank | Break

  function RoleOf(st: State, g: Glyph): Role {
    if st.escaped then Literal
    else if g.Backslash? && !st.quote.Single? then Markup
    else if g.SingleMark? && !st.quote.Double? then Markup
    else if g.DoubleMark? && !st.quote.Single? then Markup
    else if st.quote.Unquoted? && g.White? then Blank
    else if st.quote.Unquoted? && g.Separator? then Break
    else Literal
  }

  function Next(st: State, g: Glyph): State {
    if RoleOf(st, g) != Markup then State(st.quote, false)
    else if g.Backslash? then State(st.quote, true)
    else if !st.quote.Unquoted? then START
    else State(if g.SingleMark? then Single else Double, false)
  }

  function After(st: State, s: Line): State
    decreases |s|
  {
    if s == [] then st else After(Next(st, s[0]), s[1..])
  }

  lemma {:induction false} AfterConcat(st: State, s: Line, t: Line)
    ensures After(st, s + t) == After(After(st, s), t)
    decreases |s|
  {
    if s == [] {
      assert s + t == t;
    } else {
      AfterConcat(Next(st, s[0]), s[1..], t);
      assert (s + t)[0] == s[0] && (s + t)[1..] == s[1..] + t;
    }
  }

  lemma AfterOne(st: State, s: Line, c: Glyph)
    ensures After(st, s + [c]) == Next(After(st, s), c)
  {
    AfterConcat(st, s, [c]);
    assert [c][1..] == [];
    assert After(After(st, s), [c]) == Next(After(st, s), c);
  }

  // ------------------------------------------------------------------ words

  /** What a scan makes of its characters: letters of words and places where a word ends. */
  datatype Mark = Letter(c: Glyph) | Gap

  /** `whole` is the reading in which unprotected separators end words too. */
  function Marked(role: Role, c: Glyph, whole: bool): seq<Mark> {
    if role.Markup? then [] else if role.Blank? || (whole && role.Break?) then [Gap] else [Letter(c)]
  }

  function Marks(st: State, s: Line, whole: bool): seq<Mark>
    decreases |s|
  {
    if s == [] then []
    else Marked(RoleOf(st, s[0]), s[0], whole) + Marks(Next(st, s[0]), s[1..], whole)
  }

  function Flushed(current: Line): seq<Line> { if current != [] then [current] else [] }

  function Words(current: Line, marks: seq<Mark>): seq<Line>
    decreases |marks|
  {
    if marks == [] then Flushed(current)
    else if marks[0].Gap? then Flushed(current) + Words([], marks[1..])
    else Words(current + [marks[0].c], marks[1..])
  }

  /** `tokenizeShellLike`. */
  function Tokens(s: Line): seq<Line> { Words([], Marks(START, s, false)) }

  /** One scan of the whole line that treats unprotected separators as white space. */
  function WholeTokens(s: Line): seq<Line> { Words([], Marks(START, s, true)) }

  // ------------------------------------------------------------------ segments

  /** The pieces between unprotected separators, untrimmed. */
  function Pieces(st: State, current: Line, s: Line): seq<Line>
    decreases |s|
  {
    if s == [] then [current]
    else if RoleOf(st, s[0]).Break? then [current] + Pieces(Next(st, s[0]), [], s[1..])
    else Pieces(Next(st, s[0]), current + [s[0]], s[1..])
  }

  /** The trimmed pieces that are not empty. */
  function Kept(pieces: seq<Line>, trim: Line -> Line): seq<Line> {
    if pieces == [] then [] else Flushed(trim(pieces[0])) + Kept(pieces[1..], trim)
  }

  function Trimmed(s: Line): Line { Trim(s, IsWhite) }

  /** `splitCommandSegments`. */
  function Segments(s: Line): seq<Line> { Kept(Pieces(START, [], s), Trimmed) }

  /** The results of one scan per segment, one after another. */
  function Scanned(segments: seq<Line>, scan: Line -> seq<Line>): seq<Line> {
    if segments == [] then [] else scan(segments[0]) + Scanned(segments[1..], scan)
  }

  // ------------------------------------------------------------------ the loops of the source

  /** The state a scanner holds before each character and at the end. */
  ghost predicate HeldStates(s: Line, held: seq<State>) {
    |held| == |s| + 1 && forall i :: 0 <= i <= |s| ==> held[i] == After(START, s[..i])
  }

  lemma PrefixStep(s: Line, i: nat, held: seq<State>) returns (next: State)
    requires i < |s| && HeldStates(s[..i], held)
    ensures next == After(START, s[..i + 1]) == Next(After(START, s[..i]), s[i])
    ensures HeldStates(s[..i + 1], held + [next])
  {
    assert s[..i + 1] == s[..i] + [s[i]];
    AfterOne(START, s[..i], s[i]);
    next := After(START, s[..i + 1]);
    forall j | 0 <= j <= i ensures s[..i + 1][..j] == s[..i][..j] {}
    assert s[..i + 1][..i + 1] == s[..i + 1];
  }

  predicate IsQuoteMark(c: Glyph) { c.SingleMark? || c.DoubleMark? }

  predicate IsSeparator(c: Glyph) { c.Separator? }

  /** The quote a mark opens and closes. */
  function QuoteOf(c: Glyph): Quote { if c.SingleMark? then Single else if c.DoubleMark? then Double else Unquoted }

  /** The branches of both loops, in their order. */
  predicate Branches(st: State, c: Glyph, next: State, role: Role) {
    if st.escaped then next == State(st.quote, false) && role == Literal
    else if c.Backslash? && st.quote != Single then next == State(st.quote, true) && role == Markup
    else if IsQuoteMark(c) && st.quote == Unquoted then next == State(QuoteOf(c), false) && role == Markup
    else if IsQuoteMark(c) && QuoteOf(c) == st.quote then next == State(Unquoted, false) && role == Markup
    else next == st && role == if st.quote != Unquoted then Literal
                               else if IsSeparator(c) then Break
                               else if IsWhite(c) then Blank else Literal
  }

  lemma SplitterStep(input: Line, i: nat, st: State, segments: seq<Line>, current: Line, held: seq<State>, trim: Line -> Line)
    returns (next: State, role: Role)
    requires i < |input| && st == After(START, input[..i]) && HeldStates(input[..i], held)
    ensures Branches(st, input[i], next, role)
    ensures next == After(START, input[..i + 1]) && HeldStates(input[..i + 1], held + [next])
    ensures segments + Kept(Pieces(st, current, input[i..]), trim) ==
            if !role.Break? then segments + Kept(Pieces(next, current + [input[i]], input[i + 1..]), trim)
            else if trim(current) == [] then segments + Kept(Pieces(next, [], input[i + 1..]), trim)
            else segments + [trim(current)] + Kept(Pieces(next, [], input[i + 1..]), trim)
  {
    assert segments + [] == segments;
    next := PrefixStep(input, i, held);
    role := RoleOf(st, input[i]);
    assert input[i..][1..] == input[i + 1..];
    PiecesStep(segments, current, st, input[i..], trim);
  }

  lemma TokenizerStep(input: Line, i: nat, st: State, tokens: seq<Line>, current: Line, held: seq<State>)
    returns (next: State, role: Role)
    requires i < |input| && st == After(START, input[..i]) && HeldStates(input[..i], held)
    ensures Branches(st, input[i], next, role)
    ensures next == After(START, input[..i + 1]) && HeldStates(input[..i + 1], held + [next])
    ensures tokens + Words(current, Marks(st, input[i..], false)) ==
            if role.Markup? then tokens + Words(current, Marks(next, input[i + 1..], false))
            else if !role.Blank? then tokens + Words(current + [input[i]], Marks(next, input[i + 1..], false))
            else if current == [] then tokens + Words([], Marks(next, input[i + 1..], false))
            else tokens + [current] + Words([], Marks(next, input[i + 1..], false))
  {
    assert tokens + [] == tokens;
    next := PrefixStep(input, i, held);
    role := RoleOf(st, input[i]);
    assert input[i..][1..] == input[i + 1..];
    WordsStep(tokens, current, st, input[i..]);
  }

  method SplitCommandSegments(input: Line) returns (segments: seq<Line>, ghost held: seq<State>)
    ensures segments == Segments(input)
    ensures HeldStates(input, held)
  {
    segments, held := SplitAndTrim(input, Trimmed);
  }

  method SplitAndTrim(input: Line, trim: Line -> Line) returns (segments: seq<Line>, ghost held: seq<State>)
    ensures segments == Kept(Pieces(START, [], input), trim)
    ensures HeldStates(input, held)
  {
    segments, held := [], [START];
    var current, quote, escaped := [], Unquoted, false;
    ghost var all := Kept(Pieces(START, [], input), trim);
    for i := 0 to |input|
      invariant HeldStates(input[..i], held)
      invariant State(quote, escaped) == After(START, input[..i])
      invariant segments + Kept(Pieces(State(quote, escaped), current, input[i..]), trim) == all
    {
      var c := input[i];
      ghost var next, role := SplitterStep(input, i, State(quote, escaped), segments, current, held, trim);
      held := held + [next];
      if escaped {
        current, escaped := current + [c], false;
      } else if c.Backslash? && quote != Single {
        current, escaped := current + [c], true;
      } else if IsQuoteMark(c) && quote == Unquoted {
        quote, current := QuoteOf(c), current + [c];
      } else if IsQuoteMark(c) && QuoteOf(c) == quote {
        quote, current := Unquoted, current + [c];
      } else if quote == Unquoted && IsSeparator(c) {
        if trim(current) != [] {
          segments := segments + [trim(current)];
        }
        current := [];
      } else {
        current := current + [c];
      }
    }
    KeptLast(segments, current, trim);
    if trim(current) != [] {
      segments := segments + [trim(current)];
    }
    assert input[..|input|] == input;
  }

  lemma PiecesStep(segments: seq<Line>, current: Line, st: State, s: Line, trim: Line -> Line)
    requires s != []
    ensures segments + Kept(Pieces(st, current, s), trim) ==
            if RoleOf(st, s[0]).Break?
            then segments + Flushed(trim(current)) + Kept(Pieces(Next(st, s[0]), [], s[1..]), trim)
            else segments + Kept(Pieces(Next(st, s[0]), current + [s[0]], s[1..]), trim)
  {
    if RoleOf(st, s[0]).Break? {
      assert Pieces(st, current, s)[1..] == Pieces(Next(st, s[0]), [], s[1..]);
    }
  }

  lemma KeptLast(segments: seq<Line>, current: Line, trim: Line -> Line)
    ensures segments + Kept([current], trim) == segments + Flushed(trim(current))
  {
    assert [current][1..] == [];
    assert Kept([], trim) == [];
  }

  method TokenizeShellLike(input: Line) returns (tokens: seq<Line>, ghost held: seq<State>)
    ensures tokens == Tokens(input)
    ensures HeldStates(input, held)
  {
    tokens, held := [], [START];
    var current, quote, escaped := [], Unquoted, false;
    ghost var all := Tokens(input);
    for i := 0 to |input|
      invariant HeldStates(input[..i], held)
      invariant State(quote, escaped) == After(START, input[..i])
      invariant tokens + Words(current, Marks(State(quote, escaped), input[i..], false)) == all
    {
      var c := input[i];
      ghost var next, role := TokenizerStep(input, i, State(quote, escaped), tokens, current, held);
      held := held + [next];
      if escaped {
        current, escaped := current + [c], false;
      } else if c.Backslash? && quote != Single {
        escaped := true;
      } else if IsQuoteMark(c) && quote == Unquoted {
        quote := QuoteOf(c);
      } else if IsQuoteMark(c) && QuoteOf(c) == quote {
        quote := Unquoted;
      } else if quote == Unquoted && IsWhite(c) {
        if current != [] {
          tokens, current := tokens + [current], [];
        }
      } else {
        current := current + [c];
      }
    }
    if current != [] {
      tokens := tokens + [current];
    }
    assert input[..|input|] == input;
  }

  lemma WordsCons(current: Line, mark: Mark, rest: seq<Mark>)
    ensures Words(current, [mark] + rest) == if mark.Gap? then Flushed(current) + Words([], rest) else Words(current + [mark.c], rest)
  {
    assert ([mark] + rest)[1..] == rest;
  }

  lemma WordsStep(tokens: seq<Line>, current: Line, st: State, s: Line)
    requires s != []
    ensures var role, rest := RoleOf(st, s[0]), Marks(Next(st, s[0]), s[1..], false);
            tokens + Words(current, Marks(st, s, false)) ==
              if role.Markup? then tokens + Words(current, rest)
              else if role.Blank? then tokens + Flushed(current) + Words([], rest)
              else tokens + Words(current + [s[0]], rest)
  {
    var role, rest := RoleOf(st, s[0]), Marks(Next(st, s[0]), s[1..], false);
    if role.Markup? {
      assert [] + rest == rest;
    } else if role.Blank? {
      WordsCons(current, Gap, rest);
      Associate(tokens, Flushed(current), Words([], rest));
    } else {
      WordsCons(current, Letter(s[0]), rest);
    }
  }

  // ------------------------------------------------------------------ marks and words

  lemma {:induction false} MarksConcat(st: State, s: Line, t: Line, whole: bool)
    ensures Marks(st, s + t, whole) == Marks(st, s, whole) + Marks(After(st, s), t, whole)
    decreases |s|
  {
    if s == [] {
      assert s + t == t;
    } else {
      MarksConcat(Next(st, s[0]), s[1..], t, whole);
      assert (s + t)[0] == s[0] && (s + t)[1..] == s[1..] + t;
    }
  }

  lemma MarksOne(st: State, c: Glyph, s: Line, whole: bool)
    ensures Marks(st, [c] + s, whole) == Marked(RoleOf(st, c), c, whole) + Marks(Next(st, c), s, whole)
  {
    assert ([c] + s)[1..] == s;
  }

  lemma {:induction false} GapSplitsWords(current: Line, a: seq<Mark>, b: seq<Mark>)
    ensures Words(current, a + [Gap] + b) == Words(current, a) + Words([], b)
    decreases |a|
  {
    if a == [] {
      assert a + [Gap] + b == [Gap] + b;
      assert ([Gap] + b)[1..] == b;
    } else {
      assert (a + [Gap] + b)[0] == a[0] && (a + [Gap] + b)[1..] == a[1..] + [Gap] + b;
      GapSplitsWords(if a[0].Gap? then [] else current + [a[0].c], a[1..], b);
    }
  }

  ghost predicate AllGaps(marks: seq<Mark>) { forall i :: 0 <= i < |marks| ==> marks[i].Gap? }

  lemma {:induction false} LeadingGapsVanish(gaps: seq<Mark>, marks: seq<Mark>)
    requires AllGaps(gaps)
    ensures Words([], gaps + marks) == Words([], marks)
    decreases |gaps|
  {
    if gaps == [] {
      assert gaps + marks == marks;
    } else {
      LeadingGapsVanish(gaps[1..], marks);
      assert (gaps + marks)[1..] == gaps[1..] + marks;
    }
  }

  lemma {:induction false} TrailingGapsVanish(current: Line, marks: seq<Mark>, gaps: seq<Mark>)
    requires AllGaps(gaps)
    ensures Words(current, marks + gaps) == Words(current, marks)
    decreases |marks|
  {
    if marks == [] {
      assert marks + gaps == gaps;
      if gaps != [] {
        LeadingGapsVanish(gaps[1..], []);
        assert gaps[1..] + [] == gaps[1..];
      }
    } else {
      assert (marks + gaps)[0] == marks[0] && (marks + gaps)[1..] == marks[1..] + gaps;
      TrailingGapsVanish(if marks[0].Gap? then [] else current + [marks[0].c], marks[1..], gaps);
    }
  }

  function Letters(marks: seq<Mark>): nat {
    if marks == [] then 0 else (if marks[0].Letter? then 1 else 0) + Letters(marks[1..])
  }

  function Size(words: seq<Line>): nat { if words == [] then 0 else |words[0]| + Size(words[1..]) }

  lemma {:induction false} LettersConcat(a: seq<Mark>, b: seq<Mark>)
    ensures Letters(a + b) == Letters(a) + Letters(b)
  {
    if a == [] {
      assert a + b == b;
    } else {
      LettersConcat(a[1..], b);
      assert (a + b)[1..] == a[1..] + b;
    }
  }

  lemma {:induction false} SizeConcat(a: seq<Line>, b: seq<Line>)
    ensures Size(a + b) == Size(a) + Size(b)
  {
    if a == [] {
      assert a + b == b;
    } else {
      SizeConcat(a[1..], b);
      assert (a + b)[1..] == a[1..] + b;
    }
  }

  /** No letter is lost or invented by cutting marks into words. */
  lemma {:induction false} WordsConserveLetters(current: Line, marks: seq<Mark>)
    ensures Size(Words(current, marks)) == |current| + Letters(marks)
    decreases |marks|
  {
    assert Size(Flushed(current)) == |current|;
    if marks != [] {
      if marks[0].Gap? {
        WordsConserveLetters([], marks[1..]);
        SizeConcat(Flushed(current), Words([], marks[1..]));
      } else {
        WordsConserveLetters(current + [marks[0].c], marks[1..]);
      }
    }
  }

  // ------------------------------------------------------------------ one scan against the untrimmed pieces

  lemma PiecesAtEnd(current: Line)
    requires Marks(START, current, true) == Marks(START, current, false)
    ensures WholeTokens(current) == Scanned(Pieces(After(START, current), current, []), Tokens)
  {
    ScannedOne(current, [], Tokens);
  }

  lemma PiecesAtBreak(current: Line, c: Glyph, rest: Line)
    requires Marks(START, current, true) == Marks(START, current, false) && RoleOf(After(START, current), c).Break?
    requires WholeTokens(rest) == Scanned(Pieces(START, [], rest), Tokens)
    ensures WholeTokens(current + ([c] + rest)) == Scanned(Pieces(After(START, current), current, [c] + rest), Tokens)
  {
    BreakSplitsScan(current, c, rest);
    PiecesCons(START, current, c, rest);
    ScannedOne(current, Pieces(START, [], rest), Tokens);
  }

  lemma PiecesCons(st: State, current: Line, c: Glyph, rest: Line)
    ensures Pieces(st, current, [c] + rest) ==
            if RoleOf(st, c).Break? then [current] + Pieces(Next(st, c), [], rest) else Pieces(Next(st, c), current + [c], rest)
  {
    assert ([c] + rest)[1..] == rest;
  }

  lemma {:induction false} WholeScanIsPieces(current: Line, s: Line)
    requires Marks(START, current, true) == Marks(START, current, false)
    ensures WholeTokens(current + s) == Scanned(Pieces(After(START, current), current, s), Tokens)
    decreases |s|
  {
    if s == [] {
      assert current + s == current;
      PiecesAtEnd(current);
    } else {
      var c, rest := s[0], s[1..];
      assert s == [c] + rest;
      if RoleOf(After(START, current), c).Break? {
        assert [] + rest == rest;
        WholeScanIsPieces([], rest);
        PiecesAtBreak(current, c, rest);
      } else {
        GrowPiece(current, c);
        WholeScanIsPieces(current + [c], rest);
        Associate(current, [c], rest);
        PiecesCons(After(START, current), current, c, rest);
      }
    }
  }

  lemma ScannedOne(first: Line, rest: seq<Line>, scan: Line -> seq<Line>)
    ensures Scanned([first] + rest, scan) == scan(first) + Scanned(rest, scan)
    ensures Scanned([first], scan) == scan(first)
  {
    assert ([first] + rest)[1..] == rest && [first][1..] == [];
    assert Scanned([], scan) == [] && scan(first) + [] == scan(first);
  }

  lemma BreakSplitsScan(current: Line, c: Glyph, rest: Line)
    requires Marks(START, current, true) == Marks(START, current, false)
    requires RoleOf(After(START, current), c).Break?
    ensures WholeTokens(current + ([c] + rest)) == Tokens(current) + WholeTokens(rest)
    ensures After(START, current) == START && Next(START, c) == START
  {
    var a, b := Marks(START, current, false), Marks(START, rest, true);
    MarksConcat(START, current, [c] + rest, true);
    MarksOne(START, c, rest, true);
    Associate(a, [Gap], b);
    GapSplitsWords([], a, b);
  }

  lemma GrowPiece(current: Line, c: Glyph)
    requires Marks(START, current, true) == Marks(START, current, false) && !RoleOf(After(START, current), c).Break?
    ensures Marks(START, current + [c], true) == Marks(START, current + [c], false)
    ensures After(START, current + [c]) == Next(After(START, current), c)
  {
    AfterOne(START, current, c);
    MarksConcat(START, current, [c], true);
    MarksConcat(START, current, [c], false);
    assert [c] == [c] + [];
    MarksOne(After(START, current), c, [], true);
    MarksOne(After(START, current), c, [], false);
  }

  // ------------------------------------------------------------------ what trimming does to a piece

  ghost predicate AllWhite(s: Line) { forall i :: 0 <= i < |s| ==> s[i].White? }

  lemma {:induction false} WhiteIsGaps(s: Line)
    requires AllWhite(s)
    ensures AllGaps(Marks(START, s, false)) && After(START, s) == START
  {
    if s != [] {
      assert s[0].White?;
      WhiteIsGaps(s[1..]);
    }
  }

  /** After a pending backslash or inside a quote, white space counts. */
  lemma ProtectedWhiteHasLetter(st: State, s: Line)
    requires AllWhite(s) && s != [] && st != START
    ensures Letters(Marks(st, s, false)) > 0
  {
    assert s[0].White?;
    assert Marks(st, s, false)[0] == Letter(s[0]);
  }

  /** Trimming loses nothing of the piece: it removes nothing at the end, or only unprotected white space. */
  predicate TrimsFreely(piece: Line) {
    Trimmed(piece) == TrimStart(piece, IsWhite) || After(START, Trimmed(piece)) == START
  }

  lemma TrimParts(piece: Line) returns (lead: Line, trail: Line)
    ensures piece == lead + Trimmed(piece) + trail && AllWhite(lead) && AllWhite(trail)
    ensures trail == [] <==> Trimmed(piece) == TrimStart(piece, IsWhite)
  {
    var a := TrimStart(piece, IsWhite);
    lead := CutStart(piece);
    trail := CutEnd(a);
    Associate(lead, TrimEnd(a, IsWhite), trail);
  }

  lemma Associate<T>(a: seq<T>, b: seq<T>, c: seq<T>)
    ensures a + (b + c) == a + b + c
  {
  }

  lemma CutStart(piece: Line) returns (lead: Line)
    ensures piece == lead + TrimStart(piece, IsWhite) && AllWhite(lead)
  {
    lead := piece[..|piece| - |TrimStart(piece, IsWhite)|];
    WhiteSort(lead);
  }

  lemma CutEnd(a: Line) returns (trail: Line)
    ensures a == TrimEnd(a, IsWhite) + trail && AllWhite(trail)
    ensures trail == [] <==> TrimEnd(a, IsWhite) == a
  {
    var core := TrimEnd(a, IsWhite);
    trail := a[|core|..];
    WhiteSort(trail);
  }

  lemma WhiteSort(s: Line)
    requires forall i :: 0 <= i < |s| ==> IsWhite(s[i])
    ensures AllWhite(s)
  {
  }

  lemma TokensOfParts(lead: Line, core: Line, trail: Line)
    requires AllWhite(lead)
    ensures Tokens(lead + core + trail) == Words([], Marks(START, core, false) + Marks(After(START, core), trail, false))
  {
    WhiteIsGaps(lead);
    assert lead + core + trail == lead + (core + trail);
    MarksConcat(START, lead, core + trail, false);
    MarksConcat(START, core, trail, false);
    LeadingGapsVanish(Marks(START, lead, false), Marks(START, core + trail, false));
  }

  /** A piece and its trimmed form have the same tokens, or the trimmed form has fewer letters. */
  lemma TrimmedPieceTokens(piece: Line)
    ensures TrimsFreely(piece) ==> Tokens(Trimmed(piece)) == Tokens(piece)
    ensures !TrimsFreely(piece) ==> Size(Tokens(Trimmed(piece))) < Size(Tokens(piece))
  {
    var lead, trail := TrimParts(piece);
    var core := Trimmed(piece);
    var a, b := Marks(START, core, false), Marks(After(START, core), trail, false);
    TokensOfParts(lead, core, trail);
    if trail == [] {
      assert a + b == a;
    } else if After(START, core) == START {
      WhiteIsGaps(trail);
      TrailingGapsVanish([], a, b);
    } else {
      ProtectedWhiteHasLetter(After(START, core), trail);
      LettersConcat(a, b);
      WordsConserveLetters([], a);
      WordsConserveLetters([], a + b);
    }
  }

  // ------------------------------------------------------------------ the two scans agree

  lemma KeptTokensStep(pieces: seq<Line>, trim: Line -> Line, scan: Line -> seq<Line>)
    requires pieces != [] && scan([]) == []
    ensures Scanned(Kept(pieces, trim), scan) == scan(trim(pieces[0])) + Scanned(Kept(pieces[1..], trim), scan)
  {
    var rest := Kept(pieces[1..], trim);
    if trim(pieces[0]) == [] {
      assert Flushed([]) + rest == rest;
    } else {
      assert ([trim(pieces[0])] + rest)[1..] == rest;
    }
  }

  lemma {:induction false} FreePiecesTokens(pieces: seq<Line>, trim: Line -> Line, scan: Line -> seq<Line>)
    requires scan([]) == [] && forall i :: 0 <= i < |pieces| ==> scan(trim(pieces[i])) == scan(pieces[i])
    ensures Scanned(Kept(pieces, trim), scan) == Scanned(pieces, scan)
  {
    if pieces != [] {
      FreePiecesTokens(pieces[1..], trim, scan);
      KeptTokensStep(pieces, trim, scan);
    }
  }

  /** Letter counting: one piece that loses letters makes the whole list differ, as no piece gains any. */
  lemma {:induction false} CutPieceTokens(pieces: seq<Line>, trim: Line -> Line, scan: Line -> seq<Line>)
    requires scan([]) == [] && forall i :: 0 <= i < |pieces| ==> Size(scan(trim(pieces[i]))) <= Size(scan(pieces[i]))
    ensures Size(Scanned(Kept(pieces, trim), scan)) <= Size(Scanned(pieces, scan))
    ensures (exists i :: 0 <= i < |pieces| && Size(scan(trim(pieces[i]))) < Size(scan(pieces[i]))) ==>
              Size(Scanned(Kept(pieces, trim), scan)) < Size(Scanned(pieces, scan))
  {
    if pieces != [] {
      CutPieceTokens(pieces[1..], trim, scan);
      KeptTokensStep(pieces, trim, scan);
      SizeConcat(scan(trim(pieces[0])), Scanned(Kept(pieces[1..], trim), scan));
      SizeConcat(scan(pieces[0]), Scanned(pieces[1..], scan));
      if i: nat :| i < |pieces| && Size(scan(trim(pieces[i]))) < Size(scan(pieces[i])) {
        assert i > 0 ==> pieces[1..][i - 1] == pieces[i];
      }
    }
  }

  lemma PiecesDecide(pieces: seq<Line>, trim: Line -> Line, scan: Line -> seq<Line>, free: Line -> bool)
    requires scan([]) == []
    requires forall i :: 0 <= i < |pieces| ==> free(pieces[i]) ==> scan(trim(pieces[i])) == scan(pieces[i])
    requires forall i :: 0 <= i < |pieces| ==> !free(pieces[i]) ==> Size(scan(trim(pieces[i]))) < Size(scan(pieces[i]))
    ensures Scanned(Kept(pieces, trim), scan) == Scanned(pieces, scan) <==> forall i :: 0 <= i < |pieces| ==> free(pieces[i])
  {
    if forall i :: 0 <= i < |pieces| ==> free(pieces[i]) {
      FreePiecesTokens(pieces, trim, scan);
    } else {
      CutPieceTokens(pieces, trim, scan);
    }
  }

  /**
   * Tokenising the split segments one after another gives the tokens of one scan of the whole line exactly when no piece between
   * separators ends in white space that a backslash or an open quote protects.
   */
  lemma ScansAgreeIffTrimsFreely(input: Line)
    ensures Scanned(Segments(input), Tokens) == WholeTokens(input)
       <==> forall i :: 0 <= i < |Pieces(START, [], input)| ==> TrimsFreely(Pieces(START, [], input)[i])
  {
    var pieces := Pieces(START, [], input);
    WholeScanIsPieces([], input);
    assert [] + input == input;
    forall i | 0 <= i < |pieces|
      ensures TrimsFreely(pieces[i]) ==> Tokens(Trimmed(pieces[i])) == Tokens(pieces[i])
      ensures !TrimsFreely(pieces[i]) ==> Size(Tokens(Trimmed(pieces[i]))) < Size(Tokens(pieces[i]))
    {
      TrimmedPieceTokens(pieces[i]);
    }
    PiecesDecide(pieces, Trimmed, Tokens, TrimsFreely);
  }

  // ------------------------------------------------------------------ lock step

  /** A piece starts where both scanners are in their start state, and reaches to the end or to an unprotected separator. */
  ghost predicate Placed(input: Line, before: Line, piece: Line, after: Line) {
    && input == before + piece + after && After(START, before) == START
    && (after == [] || After(START, piece) == START)
  }

  lemma Regroup<T>(a: seq<T>, b: seq<T>, c: seq<T>, d: seq<T>)
    ensures a + (b + c + d) == a + b + c + d
  {
  }

  lemma PlacedLater(head: Line, rest: Line, before: Line, piece: Line, after: Line)
    requires After(START, head) == START && Placed(rest, before, piece, after)
    ensures Placed(head + rest, head + before, piece, after)
  {
    AfterConcat(START, head, before);
    Regroup(head, before, piece, after);
  }

  lemma {:induction false} PiecesArePlaced(current: Line, s: Line, k: nat) returns (before: Line, after: Line)
    requires k < |Pieces(After(START, current), current, s)|
    ensures Placed(current + s, before, Pieces(After(START, current), current, s)[k], after)
    decreases |s|
  {
    var st := After(START, current);
    if s == [] {
      before, after := [], [];
    } else {
      AfterOne(START, current, s[0]);
      assert current + s == current + [s[0]] + s[1..];
      if !RoleOf(st, s[0]).Break? {
        before, after := PiecesArePlaced(current + [s[0]], s[1..], k);
      } else if k == 0 {
        before, after := [], s;
        assert [] + current + s == current + s;
      } else {
        before, after := PiecesArePlaced([], s[1..], k - 1);
        assert [] + s[1..] == s[1..];
        PlacedLater(current + [s[0]], s[1..], before, Pieces(START, [], s[1..])[k - 1], after);
        before := current + [s[0]] + before;
      }
    }
  }

  /** `segment` follows `before`, and up to each of its characters the line and the segment alone lead to the same state. */
  ghost predicate InLockStep(input: Line, before: Line, segment: Line, after: Line) {
    && input == before + segment + after
    && forall j :: 0 <= j <= |segment| ==> After(START, before + segment[..j]) == After(START, segment[..j])
  }

  /** At every character of a trimmed segment, tokenising it holds the state that splitting the whole line held there. */
  lemma ScannersRunInLockStep(input: Line, k: nat) returns (before: Line, after: Line)
    requires k < |Pieces(START, [], input)|
    ensures InLockStep(input, before, Trimmed(Pieces(START, [], input)[k]), after)
  {
    before, after := PiecesArePlaced([], input, k);
    assert [] + input == input;
    before, after := TrimmedIsInLockStep(input, before, Pieces(START, [], input)[k], after);
  }

  lemma TrimmedIsInLockStep(input: Line, before: Line, piece: Line, after: Line) returns (before': Line, after': Line)
    requires Placed(input, before, piece, after)
    ensures InLockStep(input, before', Trimmed(piece), after')
  {
    var lead, trail := TrimParts(piece);
    WhiteIsGaps(lead);
    before', after' := before + lead, trail + after;
    AfterConcat(START, before, lead);
    PartIsInLockStep(before', Trimmed(piece));
    RegroupAround(before, lead, Trimmed(piece), trail, after);
  }

  lemma RegroupAround<T>(a: seq<T>, b: seq<T>, c: seq<T>, d: seq<T>, e: seq<T>)
    ensures a + (b + c + d) + e == (a + b) + c + (d + e)
  {
  }

  lemma PartIsInLockStep(before: Line, segment: Line)
    requires After(START, before) == START
    ensures forall j :: 0 <= j <= |segment| ==> After(START, before + segment[..j]) == After(START, segment[..j])
  {
    forall j | 0 <= j <= |segment| ensures After(START, before + segment[..j]) == After(START, segment[..j]) {
      AfterConcat(START, before, segment[..j]);
    }
  }

  // ------------------------------------------------------------------ when the scans agree

  ghost predicate QuotesClosed(input: Line) { After(START, input).quote.Unquoted? }

  ghost predicate NoEscapedWhite(input: Line) {
    forall i :: 0 <= i < |input| && input[i].White? ==> !After(START, input[..i]).escaped
  }

  lemma {:induction false} QuoteOutlastsWhite(st: State, s: Line)
    requires AllWhite(s) && !st.quote.Unquoted?
    ensures After(st, s).quote == st.quote
    decreases |s|
  {
    if s != [] {
      assert s[0].White?;
      QuoteOutlastsWhite(Next(st, s[0]), s[1..]);
    }
  }

  /** A piece that loses something has escaped white space or ends inside a quote. */
  lemma LossHasAReason(piece: Line) returns (i: nat)
    requires !TrimsFreely(piece)
    ensures i < |piece| && piece[i].White?
    ensures After(START, piece[..i]).escaped || !After(START, piece).quote.Unquoted?
  {
    var lead, trail := TrimParts(piece);
    var core := Trimmed(piece);
    i := |lead| + |core|;
    WhiteIsGaps(lead);
    AfterConcat(START, lead, core);
    assert piece[..i] == lead + core && piece[i] == trail[0];
    if !After(START, core).escaped {
      QuoteOutlastsWhite(After(START, core), trail);
      AfterConcat(START, lead + core, trail);
    }
  }

  lemma PlacedWhiteIsUnescaped(input: Line, before: Line, piece: Line, after: Line, i: nat)
    requires Placed(input, before, piece, after) && NoEscapedWhite(input) && i < |piece| && piece[i].White?
    ensures !After(START, piece[..i]).escaped
  {
    var n := |before| + i;
    assert input[n] == piece[i] && input[..n] == before + piece[..i];
    AfterConcat(START, before, piece[..i]);
  }

  lemma PlacedPieceIsClosed(input: Line, before: Line, piece: Line, after: Line)
    requires Placed(input, before, piece, after) && QuotesClosed(input)
    ensures After(START, piece).quote.Unquoted?
  {
    if after == [] {
      assert input == before + piece;
      AfterConcat(START, before, piece);
    }
  }

  lemma PlacedPieceTrimsFreely(input: Line, before: Line, piece: Line, after: Line)
    requires Placed(input, before, piece, after) && QuotesClosed(input) && NoEscapedWhite(input)
    ensures TrimsFreely(piece)
  {
    if !TrimsFreely(piece) {
      var i := LossHasAReason(piece);
      PlacedWhiteIsUnescaped(input, before, piece, after, i);
      PlacedPieceIsClosed(input, before, piece, after);
      assert false;
    }
  }

  /** With closed quotes and no backslash-escaped white space the two scans agree on every line. */
  lemma ScansAgree(input: Line)
    requires QuotesClosed(input) && NoEscapedWhite(input)
    ensures Scanned(Segments(input), Tokens) == WholeTokens(input)
  {
    var pieces := Pieces(START, [], input);
    forall i | 0 <= i < |pieces| ensures TrimsFreely(pieces[i]) {
      var before, after := PiecesArePlaced([], input, i);
      assert [] + input == input;
      PlacedPieceTrimsFreely(input, before, pieces[i], after);
    }
    ScansAgreeIffTrimsFreely(input);
  }

  /** Escaped white space before a separator or the end is cut in half: here one scan reads a blank, the segments nothing. */
  lemma EscapedTrailingBlankIsLost(blank: Glyph)
    requires blank.White?
    ensures Scanned(Segments([Backslash, blank]), Tokens) != WholeTokens([Backslash, blank])
  {
    var line := [Backslash, blank];
    EscapedBlankIsOnePiece(line, blank);
    CutTo(line, Backslash, blank, IsWhite);
    AfterOne(START, [], Backslash);
    assert [] + [Backslash] == [Backslash];
    assert !TrimsFreely(Pieces(START, [], line)[0]);
    ScansAgreeIffTrimsFreely(line);
  }

  lemma EscapedBlankIsOnePiece(line: Line, blank: Glyph)
    requires blank.White? && line == [Backslash, blank]
    ensures Pieces(START, [], line) == [line]
  {
    var escaped := State(Unquoted, true);
    assert [blank][1..] == [] && [Backslash] + [blank] == line;
    assert Pieces(escaped, [Backslash], [blank]) == Pieces(START, line, []) == [line];
    assert line[1..] == [blank] && [] + [Backslash] == [Backslash];
    assert Next(START, line[0]) == escaped && RoleOf(START, line[0]) == Markup;
  }

  lemma CutTo(s: Line, kept: Glyph, cut: Glyph, ws: Glyph -> bool)
    requires s == [kept, cut] && !ws(kept) && ws(cut)
    ensures TrimStart(s, ws) == s && Trim(s, ws) == [kept]
  {
    assert s[..1] == [kept];
  }
}
