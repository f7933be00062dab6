/** What a scan promises about its output: the line counter, the order and
    shape of the tokens, where each lexeme sits in the source, and the rules
    for string, number and word literals. */
module LexingFacts {
  import opened Wrappers
  import opened Tokens
  import opened Lexing
  import opened Numerals

  /** The line counter after a scan has counted every line break of the
      scanned text. */
  lemma {:induction false} ScanFromLine(src: string, pos: nat, line: int)
    requires pos <= |src|
    ensures ScanFrom(src, pos, line).line == line + Newlines(src[pos..])
    decreases |src| - pos
  {
    if pos < |src| {
      var s := ScanStep(src, pos, line);
      StepLines(src, pos, line);
      ScanFromLine(src, s.next, s.line);
      NewlinesSplit(src, pos, s.next, |src|);
      assert src[pos..|src|] == src[pos..] && src[s.next..|src|] == src[s.next..];
    }
  }

  /** The tokens of a scan are never EOF, and their lines lie between the
      starting line and the final one, in non-decreasing order. */
  lemma {:induction false} ScanFromTokens(src: string, pos: nat, line: int)
    requires pos <= |src|
    ensures var r := ScanFrom(src, pos, line);
      && line <= r.line
      && (forall i :: 0 <= i < |r.tokens| ==>
            r.tokens[i].kind != Eof && line <= r.tokens[i].line <= r.line)
      && (forall i, j :: 0 <= i < j < |r.tokens| ==> r.tokens[i].line <= r.tokens[j].line)
    decreases |src| - pos
  {
    if pos < |src| {
      var s := ScanStep(src, pos, line);
      StepLines(src, pos, line);
      StepToken(src, pos, line);
      ScanFromTokens(src, s.next, s.line);
    }
  }

  /** scanTokens ends with exactly one EOF token, which carries the number
      of the last line; all tokens are on lines counted from 1, in order. */
  lemma ScanTokensShape(src: string)
    ensures var r := ScanTokens(src);
      && |r.tokens| >= 1
      && r.tokens[|r.tokens| - 1] == EofToken(1 + Newlines(src))
      && (forall i :: 0 <= i < |r.tokens| - 1 ==> r.tokens[i].kind != Eof)
      && (forall i :: 0 <= i < |r.tokens| ==> 1 <= r.tokens[i].line)
      && (forall i, j :: 0 <= i < j < |r.tokens| ==> r.tokens[i].line <= r.tokens[j].line)
  {
    ScanFromLine(src, 0, 1);
    ScanFromTokens(src, 0, 1);
    assert src[0..] == src;
  }

  /** Where a token's lexeme lies in the source: src[lo..hi]. */
  datatype Span = Span(lo: nat, hi: nat)

  /** The source span of every token a scan from pos emits, in order. */
  function Spans(src: string, pos: nat, line: int): (spans: seq<Span>)
    requires pos <= |src|
    decreases |src| - pos
  {
    if pos == |src| then []
    else
      var s := ScanStep(src, pos, line);
      var rest := Spans(src, s.next, s.line);
      if s.token.Some? then [Span(pos, s.next)] + rest else rest
  }

  /** toks sit at spans in src, a scan having started at pos on line: each
      token is the text of its own span, the spans come in source order
      without overlapping, and a token's line is the starting line plus the
      line breaks up to the end of its span. */
  ghost predicate Located(src: string, pos: nat, line: int, toks: seq<Token>, spans: seq<Span>)
  {
    && |spans| == |toks|
    && (forall i :: 0 <= i < |spans| ==>
          && pos <= spans[i].lo < spans[i].hi <= |src|
          && toks[i].lexeme == src[spans[i].lo..spans[i].hi]
          && toks[i].line == line + Newlines(src[pos..spans[i].hi]))
    && (forall i :: 0 <= i < |spans| - 1 ==> spans[i].hi <= spans[i + 1].lo)
  }

  /** One step that spans src[pos..next] and emits a token for it, in front
      of located tokens, leaves them located. */
  lemma LocatedCons(src: string, pos: nat, next: nat, line: int, nextLine: int,
                    t: Token, toks: seq<Token>, spans: seq<Span>)
    requires pos < next <= |src| && nextLine == line + Newlines(src[pos..next])
    requires Located(src, next, nextLine, toks, spans)
    requires t.lexeme == src[pos..next] && t.line == nextLine
    ensures Located(src, pos, line, [t] + toks, [Span(pos, next)] + spans)
  {
    var ts := [t] + toks;
    var all := [Span(pos, next)] + spans;
    forall i | 0 <= i < |all|
      ensures && pos <= all[i].lo < all[i].hi <= |src|
              && ts[i].lexeme == src[all[i].lo..all[i].hi]
              && ts[i].line == line + Newlines(src[pos..all[i].hi])
    {
      if i > 0 {
        NewlinesSplit(src, pos, next, spans[i - 1].hi);
      }
    }
  }

  /** A step that emits nothing keeps the tokens after it located. */
  lemma LocatedSkip(src: string, pos: nat, next: nat, line: int, nextLine: int,
                    toks: seq<Token>, spans: seq<Span>)
    requires pos < next <= |src| && nextLine == line + Newlines(src[pos..next])
    requires Located(src, next, nextLine, toks, spans)
    ensures Located(src, pos, line, toks, spans)
  {
    forall i | 0 <= i < |spans|
      ensures toks[i].line == line + Newlines(src[pos..spans[i].hi])
    {
      NewlinesSplit(src, pos, next, spans[i].hi);
    }
  }

  /** Every token of a scan is located at its span. */
  lemma {:induction false} LexemeSpans(src: string, pos: nat, line: int)
    requires pos <= |src|
    ensures Located(src, pos, line, ScanFrom(src, pos, line).tokens, Spans(src, pos, line))
    decreases |src| - pos
  {
    if pos < |src| {
      var s := ScanStep(src, pos, line);
      StepLines(src, pos, line);
      StepToken(src, pos, line);
      LexemeSpans(src, s.next, s.line);
      var rest := ScanFrom(src, s.next, s.line).tokens;
      if s.token.Some? {
        LocatedCons(src, pos, s.next, line, s.line, s.token.value, rest, Spans(src, s.next, s.line));
      } else {
        LocatedSkip(src, pos, s.next, line, s.line, rest, Spans(src, s.next, s.line));
        assert ScanFrom(src, pos, line).tokens == rest;
      }
    }
  }

  /** Every scan error is a line-numbered report of an unexpected character
      or an unterminated string, on a line between the first and the last. */
  lemma {:induction false} ScanFromErrors(src: string, pos: nat, line: int)
    requires pos <= |src|
    ensures var r := ScanFrom(src, pos, line);
      forall i :: 0 <= i < |r.errors| ==>
        && r.errors[i].LineError?
        && r.errors[i].message in {"Unexpected character.", "Unterminated string."}
        && line <= r.errors[i].line <= r.line
    decreases |src| - pos
  {
    if pos < |src| {
      var s := ScanStep(src, pos, line);
      StepLines(src, pos, line);
      ScanFromTokens(src, s.next, s.line);
      ScanFromErrors(src, s.next, s.line);
      if src[pos] == '"' {
        StringStepFacts(src, pos, line);
      }
    }
  }

  /** A quote with no closing quote after it swallows the rest of the source:
      no more tokens, one report on the last line, and the scan is over. */
  lemma UnterminatedString(src: string, pos: nat, line: int)
    requires pos < |src| && src[pos] == '"'
    requires forall k :: pos < k < |src| ==> src[k] != '"'
    ensures var last := line + Newlines(src[pos..]);
      ScanFrom(src, pos, line) == Scan([], [LineError(last, "Unterminated string.")], last)
  {
    var (close, endLine) := StringEnd(src, pos + 1, line);
    StringStepFacts(src, pos, line);
    assert close == |src|;
    var s := ScanStep(src, pos, line);
    assert s == StringStep(src, pos, line);
    assert src[pos..s.next] == src[pos..];
  }

  /** A closed string literal runs to the first quote after the opening one;
      its lexeme keeps both quotes, its literal is the text between them, and
      it is stamped with the line of its closing quote. */
  lemma ClosedString(src: string, pos: nat, line: int, close: nat)
    requires pos < close < |src| && src[pos] == '"' && src[close] == '"'
    requires forall k :: pos < k < close ==> src[k] != '"'
    ensures ScanStep(src, pos, line)
      == Step(close + 1, line + Newlines(src[pos..close + 1]),
              Some(Token(String, src[pos..close + 1], StringValue(src[pos + 1..close]),
                         line + Newlines(src[pos..close + 1]))),
              None)
  {
    var r := StringEnd(src, pos + 1, line);
    StringEndFacts(src, pos + 1, line);
    StringStepFacts(src, pos, line);
    assert r.0 == close;
  }

  /** A number lexeme is digits, optionally a dot and more digits; it stops
      only where neither a digit nor, after digits only, a dot followed by a
      digit comes next. */
  lemma NumberLexeme(src: string, pos: nat, line: int)
    requires pos < |src| && IsDigit(src[pos])
    ensures var s := ScanStep(src, pos, line);
      var lexeme := src[pos..s.next];
      && s.token == Some(Token(Number, lexeme, NumberValue(lexeme), line))
      && s.line == line && s.error.None?
      && IsNumeral(lexeme)
      && !(s.next < |src| && IsDigit(src[s.next]))
      && (DotIndex(lexeme) == |lexeme| ==> !(s.next + 1 < |src| && src[s.next] == '.' && IsDigit(src[s.next + 1])))
  {
    StepLiteral(src, pos, line);
    var s := ScanStep(src, pos, line);
    var lexeme := src[pos..s.next];
    var intEnd := DigitsEnd(src, pos + 1);
    DigitsEndFacts(src, pos + 1);
    var w := src[pos..intEnd];
    assert AllDigits(w);
    if s.next == intEnd {
      WholeNumeral(lexeme);
    } else {
      DigitsEndFacts(src, intEnd + 1);
      var f := src[intEnd + 1..s.next];
      assert AllDigits(f);
      assert lexeme == w + "." + f;
      FractionNumeral(lexeme, w, f);
    }
  }

  /** A word is a letter or underscore followed by letters, digits and
      underscores, as long as possible; it is a reserved word exactly when
      the keyword table has it, and an identifier otherwise. */
  lemma WordLexeme(src: string, pos: nat, line: int)
    requires pos < |src| && IsAlpha(src[pos])
    ensures var s := ScanStep(src, pos, line);
      var lexeme := src[pos..s.next];
      && s.token.Some? && s.token.value.lexeme == lexeme
      && s.line == line && s.error.None?
      && (forall i :: 0 <= i < |lexeme| ==> IsAlphaNumeric(lexeme[i]))
      && !(s.next < |src| && IsAlphaNumeric(src[s.next]))
      && (s.token.value.kind == Identifier <==> lexeme !in Keywords)
      && (lexeme in Keywords ==> s.token.value.kind == Keywords[lexeme])
  {
    WordEndFacts(src, pos + 1);
    KeywordKinds();
  }

  /** The keyword table maps every word to a reserved-word kind, never to
      IDENTIFIER. */
  lemma KeywordKinds()
    ensures forall w :: w in Keywords ==> Keywords[w] != Identifier && Keywords[w] != Eof
  {
  }

  /** The source from pos on holds only blanks, line breaks and `//`
      comments, in any order. */
  predicate Trivia(src: string, pos: nat)
    requires pos <= |src|
    decreases |src| - pos
  {
    if pos == |src| then true
    else if src[pos] in {' ', '\r', '\t', '\n'} then Trivia(src, pos + 1)
    else pos + 1 < |src| && src[pos] == '/' && src[pos + 1] == '/' && Trivia(src, CommentEnd(src, pos + 2))
  }

  /** Input made only of blanks, line breaks and comments yields the EOF
      token alone, on the last line, and no report. */
  lemma TriviaSource(src: string)
    requires Trivia(src, 0)
    ensures ScanTokens(src) == Lexed([EofToken(1 + Newlines(src))], [])
  {
    var r := ScanFrom(src, 0, 1);
    assert r.tokens == [] && r.errors == [] by { TriviaFrom(src, 0, 1); }
    assert r.line == 1 + Newlines(src) by {
      ScanFromLine(src, 0, 1);
      assert src[0..] == src;
    }
  }

  lemma {:induction false} TriviaFrom(src: string, pos: nat, line: int)
    requires pos <= |src| && Trivia(src, pos)
    ensures ScanFrom(src, pos, line).tokens == [] && ScanFrom(src, pos, line).errors == []
    decreases |src| - pos
  {
    if pos < |src| {
      var s := ScanStep(src, pos, line);
      if src[pos] in {' ', '\r', '\t', '\n'} {
        StepBlank(src, pos, line);
      } else {
        StepSlash(src, pos, line);
      }
      TriviaFrom(src, s.next, s.line);
    }
  }

  const TwoComments := "// a\n  // b\n"

  /** Two comments on lines of their own, the second indented, yield EOF
      alone on line 3. */
  lemma CommentLines()
    ensures ScanTokens(TwoComments) == Lexed([EofToken(3)], [])
  {
    TwoCommentsTrivia();
    TwoCommentsLines();
    TriviaSource(TwoComments);
  }

  lemma TwoCommentsTrivia()
    ensures Trivia(TwoComments, 0)
  {
    var src := TwoComments;
    assert CommentEnd(src, 11) == 11;
    assert Trivia(src, 11);
    assert CommentEnd(src, 2) == 4;
    assert Trivia(src, 4);
  }

  lemma TwoCommentsLines()
    ensures Newlines(TwoComments) == 2
  {
    FirstCommentLine();
    SecondCommentLine();
    assert TwoComments == "// a\n" + "  // b\n";
    NewlinesConcat("// a\n", "  // b\n");
  }

  lemma FirstCommentLine()
    ensures Newlines("// a\n") == 1
  {
    assert "// a\n" == "// a" + "\n";
    NewlinesConcat("// a", "\n");
    assert "// a" == ['/', '/', ' ', 'a'];
  }

  lemma SecondCommentLine()
    ensures Newlines("  // b\n") == 1
  {
    assert "  // b\n" == "  // b" + "\n";
    NewlinesConcat("  // b", "\n");
    assert "  // b" == [' ', ' ', '/', '/', ' ', 'b'];
  }

  /** Maximal munch over a whole scan: `!=` is one BANG_EQUAL token. */
  lemma BangEqualScan()
    ensures ScanTokens("!=").tokens == [Token(BangEqual, "!=", NilValue, 1), EofToken(1)]
  {
    var src := "!=";
    StepOperator(src, 0, 1);
    assert src[0..2] == src;
    assert ScanStep(src, 0, 1) == Step(2, 1, Some(Token(BangEqual, "!=", NilValue, 1)), None);
    assert ScanFrom(src, 2, 1) == Scan([], [], 1);
  }

  /** Without a following `=`, `!` is BANG on its own. */
  lemma BangScan()
    ensures ScanTokens("!").tokens == [Token(Bang, "!", NilValue, 1), EofToken(1)]
  {
    var src := "!";
    StepOperator(src, 0, 1);
    assert src[0..1] == src;
    assert ScanStep(src, 0, 1) == Step(1, 1, Some(Token(Bang, "!", NilValue, 1)), None);
    assert ScanFrom(src, 1, 1) == Scan([], [], 1);
  }

  /** `1.` is the number `1` and then a dot: the dot is taken into a number
      only when a digit follows it. */
  lemma TrailingDot()
    ensures ScanTokens("1.").tokens
      == [Token(Number, "1", NumberValue("1"), 1), Token(Dot, ".", NilValue, 1), EofToken(1)]
  {
    var src := "1.";
    StepLiteral(src, 0, 1);
    assert DigitsEnd(src, 1) == 1;
    assert src[0..1] == "1";
    assert ScanStep(src, 0, 1) == Step(1, 1, Some(Token(Number, "1", NumberValue("1"), 1)), None);
    StepPunctuation(src, 1, 1);
    assert src[1..2] == ".";
    assert ScanStep(src, 1, 1) == Step(2, 1, Some(Token(Dot, ".", NilValue, 1)), None);
    assert ScanFrom(src, 1, 1).tokens == [Token(Dot, ".", NilValue, 1)];
  }

  /** A word is a reserved word only on an exact match of the table. */
  lemma ExactKeywords()
    ensures KeywordKind("class") == Class && KeywordKind("classroom") == Identifier
  {
    assert "classroom" !in Keywords;
  }

  /** What indexing the keyword table with a word yields at run time. The
      table is a plain object, so a word that is not one of its own keys can
      still find a member the object inherits from the object prototype. */
  datatype Lookup = Own(kind: TokenType) | Inherited(member: string) | Missing

  /** The names an ordinary object inherits, all of them word-shaped. */
  const PrototypeMembers: set<string> := {
    "constructor", "hasOwnProperty", "isPrototypeOf", "propertyIsEnumerable",
    "toLocaleString", "toString", "valueOf", "__proto__",
    "__defineGetter__", "__defineSetter__", "__lookupGetter__", "__lookupSetter__"
  }

  /** The keyword-table lookup as written: an own key of the table, or a
      name every plain object inherits, or nothing. No reserved word is an
      inherited name, so the three cases never overlap. */
  function LookupAsWritten(text: string): (r: Lookup)
    ensures r.Own? <==> text in Keywords
    ensures r.Inherited? <==> text in PrototypeMembers
  {
    if text in Keywords then Own(Keywords[text])
    else if text in PrototypeMembers then Inherited(text)
    else Missing
  }

  /** The kind identifier() gives a word as written: the looked-up value
      unless it is null, IDENTIFIER otherwise. None stands for an inherited
      member, which is not a token kind at all. Only the inherited names are
      misread: no reserved word is one of them. */
  function WordKindAsWritten(text: string): (k: Option<TokenType>)
    ensures text !in PrototypeMembers ==> k == Some(KeywordKind(text))
  {
    match LookupAsWritten(text)
    case Own(kind) => Some(kind)
    case Inherited(_) => None
    case Missing => Some(Identifier)
  }

  /** The lookup as written goes wrong on `toString`: the whole source
      `toString` scans as one word, which is not a reserved word, yet the
      table lookup finds an inherited member and the token gets no
      IDENTIFIER kind. The corrected lookup (own keys only) says IDENTIFIER. */
  lemma PrototypeWordMisread()
    ensures var s := ScanStep("toString", 0, 1);
      && s.next == |"toString"|
      && "toString" !in Keywords
      && WordKindAsWritten("toString") == None
      && s.token == Some(Token(Identifier, "toString", NilValue, 1))
  {
    var src := "toString";
    WordLexeme(src, 0, 1);
    var s := ScanStep(src, 0, 1);
    assert s.next == |src| by {
      WordEndFacts(src, 1);
      assert forall i :: 0 <= i < |src| ==> IsAlphaNumeric(src[i]);
    }
    assert src[0..s.next] == src;
  }
}
