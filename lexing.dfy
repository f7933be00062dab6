/** The scanner as pure functions of the source text, a cursor and the line
    counter: what one call of scanToken consumes and emits, and what the
    whole scan produces. The Scanner class is proved to follow these. */
module Lexing {
  import opened Wrappers
  import opened Tokens

  predicate IsDigit(c: char) { '0' <= c <= '9' }

  predicate IsAlpha(c: char) { ('a' <= c <= 'z') || ('A' <= c <= 'Z') || c == '_' }

  predicate IsAlphaNumeric(c: char) { IsAlpha(c) || IsDigit(c) }

  /** Number of line breaks in a piece of source text. */
  function Newlines(s: string): nat { multiset(s)['\n'] }

  lemma NewlinesConcat(a: string, b: string)
    ensures Newlines(a + b) == Newlines(a) + Newlines(b)
  {
    assert multiset(a + b) == multiset(a) + multiset(b);
  }

  lemma NewlinesSplit(src: string, a: nat, b: nat, c: nat)
    requires a <= b <= c <= |src|
    ensures Newlines(src[a..c]) == Newlines(src[a..b]) + Newlines(src[b..c])
  {
    assert src[a..c] == src[a..b] + src[b..c];
    NewlinesConcat(src[a..b], src[b..c]);
  }

  /** The reserved words and their kinds. */
  const Keywords: map<string, TokenType> := map[
    "and" := And, "class" := Class, "else" := Else, "false" := False,
    "for" := For, "fun" := Fun, "if" := If, "nil" := Nil,
    "or" := Or, "print" := Print, "return" := Return, "super" := Super,
    "this" := This, "true" := True, "var" := Var, "while" := While
  ]

  /** The kind of an identifier-shaped word: its entry in the keyword table,
      or IDENTIFIER when the word is not a key of the table itself. */
  function KeywordKind(text: string): (k: TokenType)
    ensures k == Identifier <==> text !in Keywords
    ensures k != Eof
  {
    if text in Keywords then Keywords[text] else Identifier
  }

  /** Where a `//` comment whose text starts at i stops: the next line break,
      which the comment does not consume, or the end of the source. */
  function CommentEnd(src: string, i: nat): (e: nat)
    requires i <= |src|
    ensures i <= e <= |src|
    ensures e == |src| || src[e] == '\n'
    decreases |src| - i
  {
    if i < |src| && src[i] != '\n' then CommentEnd(src, i + 1) else i
  }

  /** End of the maximal run of digits starting at i. */
  function DigitsEnd(src: string, i: nat): (e: nat)
    requires i <= |src|
    ensures i <= e <= |src|
    ensures e == |src| || !IsDigit(src[e])
    decreases |src| - i
  {
    if i < |src| && IsDigit(src[i]) then DigitsEnd(src, i + 1) else i
  }

  /** End of the maximal run of letters, digits and underscores starting at i. */
  function WordEnd(src: string, i: nat): (e: nat)
    requires i <= |src|
    ensures i <= e <= |src|
    ensures e == |src| || !IsAlphaNumeric(src[e])
    decreases |src| - i
  {
    if i < |src| && IsAlphaNumeric(src[i]) then WordEnd(src, i + 1) else i
  }

  /** A comment holds no line break. */
  lemma {:induction false} CommentEndFacts(src: string, i: nat)
    requires i <= |src|
    ensures forall k :: i <= k < CommentEnd(src, i) ==> src[k] != '\n'
    decreases |src| - i
  {
    if i < |src| && src[i] != '\n' {
      CommentEndFacts(src, i + 1);
    }
  }

  /** Every character of the run is a digit. */
  lemma {:induction false} DigitsEndFacts(src: string, i: nat)
    requires i <= |src|
    ensures forall k :: i <= k < DigitsEnd(src, i) ==> IsDigit(src[k])
    decreases |src| - i
  {
    if i < |src| && IsDigit(src[i]) {
      DigitsEndFacts(src, i + 1);
    }
  }

  /** Every character of the run is a letter, a digit or an underscore. */
  lemma {:induction false} WordEndFacts(src: string, i: nat)
    requires i <= |src|
    ensures forall k :: i <= k < WordEnd(src, i) ==> IsAlphaNumeric(src[k])
    decreases |src| - i
  {
    if i < |src| && IsAlphaNumeric(src[i]) {
      WordEndFacts(src, i + 1);
    }
  }

  /** Where the body of a string literal starting at i stops (the closing
      quote or the end of the source), and the line counter there: every
      line break inside the literal is counted. */
  function StringEnd(src: string, i: nat, line: int): (r: (nat, int))
    requires i <= |src|
    ensures i <= r.0 <= |src|
    ensures r.0 == |src| || src[r.0] == '"'
    decreases |src| - i
  {
    if i < |src| && src[i] != '"' then
      StringEnd(src, i + 1, if src[i] == '\n' then line + 1 else line)
    else
      (i, line)
  }

  /** A string body holds no quote, and the line counter after it has
      counted each of its line breaks. */
  lemma {:induction false} StringEndFacts(src: string, i: nat, line: int)
    requires i <= |src|
    ensures var r := StringEnd(src, i, line);
      && (forall k :: i <= k < r.0 ==> src[k] != '"')
      && r.1 == line + Newlines(src[i..r.0])
    decreases |src| - i
  {
    if i < |src| && src[i] != '"' {
      var r := StringEnd(src, i, line);
      StringEndFacts(src, i + 1, if src[i] == '\n' then line + 1 else line);
      assert src[i..r.0] == [src[i]] + src[i + 1..r.0];
    }
  }

  /** The line counter after a string body has counted its line breaks. */
  lemma {:induction false} StringEndLines(src: string, i: nat, line: int)
    requires i <= |src|
    ensures StringEnd(src, i, line).1 == line + Newlines(src[i..StringEnd(src, i, line).0])
    decreases |src| - i
  {
    if i < |src| && src[i] != '"' {
      var e := StringEnd(src, i, line).0;
      StringEndLines(src, i + 1, if src[i] == '\n' then line + 1 else line);
      assert src[i..e] == [src[i]] + src[i + 1..e];
      NewlinesConcat([src[i]], src[i + 1..e]);
    }
  }

  /** What one call of scanToken does: the cursor and line counter after it,
      the token it appends, if any, and the error it reports, if any. */
  datatype Step = Step(next: nat, line: int, token: Option<Token>, error: Option<Diagnostic>)

  /** A step that emits one token spanning src[start..next]. */
  function Emit(src: string, start: nat, next: nat, line: int, kind: TokenType, literal: Value): Step
    requires start <= next <= |src|
  {
    Step(next, line, Some(Token(kind, src[start..next], literal, line)), None)
  }

  /** A string literal whose opening quote is at start. */
  function StringStep(src: string, start: nat, line: int): (s: Step)
    requires start < |src| && src[start] == '"'
    ensures start < s.next <= |src|
  {
    var (close, endLine) := StringEnd(src, start + 1, line);
    if close == |src| then
      Step(close, endLine, None, Some(LineError(endLine, "Unterminated string.")))
    else
      Emit(src, start, close + 1, endLine, String, StringValue(src[start + 1..close]))
  }

  /** A number literal whose first digit is at start: digits, then a `.` and
      more digits only when a digit follows the `.`. */
  function NumberStep(src: string, start: nat, line: int): (s: Step)
    requires start < |src| && IsDigit(src[start])
    ensures start < s.next <= |src| && s.line == line && s.error.None?
    ensures s.token.Some? && s.token.value.kind == Number
    ensures s.next == |src| || !IsDigit(src[s.next])
  {
    var intEnd := DigitsEnd(src, start + 1);
    var end :=
      if intEnd < |src| && src[intEnd] == '.' && intEnd + 1 < |src| && IsDigit(src[intEnd + 1])
      then DigitsEnd(src, intEnd + 1)
      else intEnd;
    Emit(src, start, end, line, Number, NumberValue(src[start..end]))
  }

  /** An identifier or reserved word whose first letter is at start. */
  function IdentifierStep(src: string, start: nat, line: int): (s: Step)
    requires start < |src| && IsAlpha(src[start])
    ensures start < s.next <= |src| && s.line == line && s.error.None?
    ensures s.token.Some? && s.token.value.kind != Eof
    ensures s.next == |src| || !IsAlphaNumeric(src[s.next])
  {
    var end := WordEnd(src, start + 1);
    Emit(src, start, end, line, KeywordKind(src[start..end]), NilValue)
  }

  /** The kind of a one-character punctuation token, if c is one. */
  function PunctuationKind(c: char): (k: Option<TokenType>)
    ensures k.Some? <==> c in {'(', ')', '{', '}', ',', '.', '-', '+', ';', '*'}
  {
    match c
    case '(' => Some(LeftParen)
    case ')' => Some(RightParen)
    case '{' => Some(LeftBrace)
    case '}' => Some(RightBrace)
    case ',' => Some(Comma)
    case '.' => Some(Dot)
    case '-' => Some(Minus)
    case '+' => Some(Plus)
    case ';' => Some(Semicolon)
    case '*' => Some(Star)
    case _ => None
  }

  predicate IsOperatorStart(c: char) { c == '!' || c == '=' || c == '<' || c == '>' }

  /** The kind of `!`, `=`, `<` or `>`, upgraded when an `=` follows. */
  function OperatorKind(c: char, withEqual: bool): (k: TokenType)
    requires IsOperatorStart(c)
    ensures k in {BangEqual, EqualEqual, LessEqual, GreaterEqual} <==> withEqual
  {
    match c
    case '!' => if withEqual then BangEqual else Bang
    case '=' => if withEqual then EqualEqual else Equal
    case '<' => if withEqual then LessEqual else Less
    case '>' => if withEqual then GreaterEqual else Greater
  }

  /** One call of scanToken with the lexeme starting at pos. */
  function ScanStep(src: string, pos: nat, line: int): (s: Step)
    requires pos < |src|
    ensures pos < s.next <= |src|
  {
    var c := src[pos];
    if c == ' ' || c == '\r' || c == '\t' then Step(pos + 1, line, None, None)
    else if c == '\n' then Step(pos + 1, line + 1, None, None)
    else if PunctuationKind(c).Some? then Emit(src, pos, pos + 1, line, PunctuationKind(c).value, NilValue)
    else if IsOperatorStart(c) then
      var withEqual := pos + 1 < |src| && src[pos + 1] == '=';
      Emit(src, pos, if withEqual then pos + 2 else pos + 1, line, OperatorKind(c, withEqual), NilValue)
    else if c == '/' then
      if pos + 1 < |src| && src[pos + 1] == '/' then Step(CommentEnd(src, pos + 2), line, None, None)
      else Emit(src, pos, pos + 1, line, Slash, NilValue)
    else if c == '"' then StringStep(src, pos, line)
    else if IsDigit(c) then NumberStep(src, pos, line)
    else if IsAlpha(c) then IdentifierStep(src, pos, line)
    else Step(pos + 1, line, None, Some(LineError(line, "Unexpected character.")))
  }

  /** Spaces, carriage returns and tabs are skipped; a line break only
      bumps the line counter. */
  lemma StepBlank(src: string, pos: nat, line: int)
    requires pos < |src| && src[pos] in {' ', '\r', '\t', '\n'}
    ensures ScanStep(src, pos, line)
      == Step(pos + 1, if src[pos] == '\n' then line + 1 else line, None, None)
  {
  }

  /** A punctuation character is a token of its own. */
  lemma StepPunctuation(src: string, pos: nat, line: int)
    requires pos < |src| && PunctuationKind(src[pos]).Some?
    ensures ScanStep(src, pos, line)
      == Emit(src, pos, pos + 1, line, PunctuationKind(src[pos]).value, NilValue)
  {
  }

  /** Maximal munch: `!`, `=`, `<` and `>` take a following `=` into a
      two-character token, and stand alone otherwise. */
  lemma StepOperator(src: string, pos: nat, line: int)
    requires pos < |src| && IsOperatorStart(src[pos])
    ensures var withEqual := pos + 1 < |src| && src[pos + 1] == '=';
      ScanStep(src, pos, line)
        == Emit(src, pos, if withEqual then pos + 2 else pos + 1, line, OperatorKind(src[pos], withEqual), NilValue)
  {
  }

  /** `//` starts a comment that runs up to the next line break and emits
      nothing; a lone `/` is SLASH. */
  lemma StepSlash(src: string, pos: nat, line: int)
    requires pos < |src| && src[pos] == '/'
    ensures ScanStep(src, pos, line)
      == if pos + 1 < |src| && src[pos + 1] == '/' then Step(CommentEnd(src, pos + 2), line, None, None)
         else Emit(src, pos, pos + 1, line, Slash, NilValue)
  {
  }

  /** A quote, a digit and a letter start a string, a number and a word. */
  lemma StepLiteral(src: string, pos: nat, line: int)
    requires pos < |src|
    ensures src[pos] == '"' ==> ScanStep(src, pos, line) == StringStep(src, pos, line)
    ensures IsDigit(src[pos]) ==> ScanStep(src, pos, line) == NumberStep(src, pos, line)
    ensures IsAlpha(src[pos]) ==> ScanStep(src, pos, line) == IdentifierStep(src, pos, line)
  {
  }

  /** Any other character is reported and skipped. */
  lemma StepUnexpected(src: string, pos: nat, line: int)
    requires pos < |src|
    requires var c := src[pos];
      c !in {' ', '\r', '\t', '\n', '/', '"'} && PunctuationKind(c).None? && !IsOperatorStart(c)
      && !IsDigit(c) && !IsAlpha(c)
    ensures ScanStep(src, pos, line) == Step(pos + 1, line, None, Some(LineError(line, "Unexpected character.")))
  {
  }

  lemma NoNewlines(src: string, a: nat, b: nat)
    requires a <= b <= |src|
    requires forall k :: a <= k < b ==> src[k] != '\n'
    ensures Newlines(src[a..b]) == 0
  {
    assert '\n' !in src[a..b];
  }

  lemma StringStepFacts(src: string, pos: nat, line: int)
    requires pos < |src| && src[pos] == '"'
    ensures var s := StringStep(src, pos, line);
      pos < s.next <= |src| && s.line == line + Newlines(src[pos..s.next])
  {
    var close := StringEnd(src, pos + 1, line).0;
    StringEndLines(src, pos + 1, line);
    assert Newlines(src[pos..pos + 1]) == 0 by { assert src[pos..pos + 1] == ['"']; }
    NewlinesSplit(src, pos, pos + 1, close);
    if close < |src| {
      ClosedStringLines(src, pos, line, close);
    }
  }

  /** A closed string also takes the closing quote, which is no line break. */
  lemma ClosedStringLines(src: string, pos: nat, line: int, close: nat)
    requires pos < |src| && src[pos] == '"'
    requires close == StringEnd(src, pos + 1, line).0 < |src|
    requires Newlines(src[pos..close]) == StringEnd(src, pos + 1, line).1 - line
    ensures StringStep(src, pos, line).next == close + 1
    ensures StringStep(src, pos, line).line == line + Newlines(src[pos..close + 1])
  {
    assert Newlines(src[close..close + 1]) == 0 by { assert src[close..close + 1] == ['"']; }
    NewlinesSplit(src, pos, close, close + 1);
  }

  /** Every step counts exactly the line breaks it consumes. */
  lemma StepLines(src: string, pos: nat, line: int)
    requires pos < |src|
    ensures ScanStep(src, pos, line).line == line + Newlines(src[pos..ScanStep(src, pos, line).next])
  {
    var c := src[pos];
    var next := ScanStep(src, pos, line).next;
    if c == '\n' {
      assert src[pos..pos + 1] == [c];
    } else if c == '"' {
      StringStepFacts(src, pos, line);
    } else if c == '/' && pos + 1 < |src| && src[pos + 1] == '/' {
      SkippedCommentLines(src, pos, line);
    } else if IsDigit(c) {
      NumberLines(src, pos, line);
    } else if IsAlpha(c) {
      WordLines(src, pos, line);
    } else {
      NoNewlines(src, pos, next);
    }
  }

  /** A comment spans no newline. */
  lemma SkippedCommentLines(src: string, pos: nat, line: int)
    requires pos + 1 < |src| && src[pos] == '/' && src[pos + 1] == '/'
    ensures ScanStep(src, pos, line).line == line + Newlines(src[pos..ScanStep(src, pos, line).next])
  {
    var next := CommentEnd(src, pos + 2);
    assert ScanStep(src, pos, line) == Step(next, line, None, None);
    CommentEndFacts(src, pos + 2);
    NoNewlines(src, pos, next);
  }

  /** A word spans no newline. */
  lemma WordLines(src: string, pos: nat, line: int)
    requires pos < |src| && IsAlpha(src[pos])
    ensures ScanStep(src, pos, line).line == line + Newlines(src[pos..ScanStep(src, pos, line).next])
  {
    var next := WordEnd(src, pos + 1);
    assert ScanStep(src, pos, line) == IdentifierStep(src, pos, line);
    WordEndFacts(src, pos + 1);
    NoNewlines(src, pos, next);
  }

  /** A number spans no newline. */
  lemma NumberLines(src: string, pos: nat, line: int)
    requires pos < |src| && IsDigit(src[pos])
    ensures ScanStep(src, pos, line).line == line + Newlines(src[pos..ScanStep(src, pos, line).next])
  {
    var next := ScanStep(src, pos, line).next;
    var intEnd := DigitsEnd(src, pos + 1);
    DigitsEndFacts(src, pos + 1);
    if next != intEnd {
      DigitsEndFacts(src, intEnd + 1);
    }
    NoNewlines(src, pos, next);
  }

  /** A token is the text its step consumed, is stamped with the line after
      the step and is never EOF; no step both emits a token and reports an
      error. */
  lemma StepToken(src: string, pos: nat, line: int)
    requires pos < |src|
    ensures var s := ScanStep(src, pos, line);
      s.token.Some? ==>
        && s.error.None?
        && s.token.value.lexeme == src[pos..s.next]
        && s.token.value.line == s.line
        && s.token.value.kind != Eof
  {
  }

  /** What the scan loop accumulates from pos to the end of the source. */
  datatype Scan = Scan(tokens: seq<Token>, errors: seq<Diagnostic>, line: int)

  /** Repeated scanToken calls from pos until the cursor reaches the end. */
  function ScanFrom(src: string, pos: nat, line: int): (r: Scan)
    requires pos <= |src|
    ensures |r.tokens| <= |src| - pos && |r.errors| <= |src| - pos
    decreases |src| - pos
  {
    if pos == |src| then Scan([], [], line)
    else
      var s := ScanStep(src, pos, line);
      var rest := ScanFrom(src, s.next, s.line);
      Scan(Seq(s.token) + rest.tokens, Seq(s.error) + rest.errors, rest.line)
  }

  /** One unfolding of the scan loop, after tokens and errors that are
      already there. */
  lemma ScanFromStep(src: string, pos: nat, line: int, tokens: seq<Token>, errors: seq<Diagnostic>)
    requires pos < |src|
    ensures var s := ScanStep(src, pos, line);
      var rest := ScanFrom(src, s.next, s.line);
      && tokens + ScanFrom(src, pos, line).tokens == (tokens + Seq(s.token)) + rest.tokens
      && errors + ScanFrom(src, pos, line).errors == (errors + Seq(s.error)) + rest.errors
      && ScanFrom(src, pos, line).line == rest.line
  {
  }

  /** The result of scanTokens on a fresh scanner. */
  datatype Lexed = Lexed(tokens: seq<Token>, errors: seq<Diagnostic>)

  /** The end-of-input token carrying the final line. */
  function EofToken(line: int): Token { Token(Eof, "", NilValue, line) }

  /** scanTokens on a fresh scanner: the scan from the first character on
      line 1, then the EOF token carrying the final line. */
  function ScanTokens(src: string): (r: Lexed)
    ensures 1 <= |r.tokens| <= |src| + 1 && r.tokens[|r.tokens| - 1].kind == Eof
    ensures |r.errors| <= |src|
  {
    var s := ScanFrom(src, 0, 1);
    Lexed(s.tokens + [EofToken(s.line)], s.errors)
  }
}
