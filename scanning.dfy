/** The Scanner object: one cursor (start/current) over the source, a line
    counter, and the token list it appends to. Each method is proved to
    follow the matching function of Lexing. */
module Scanning {
  import opened Wrappers
  import opened Tokens
  import opened Lexing

  class Scanner {
    const source: string
    var tokens: seq<Token>
    /** The reports this scanner has made to the error sink, in order. */
    var errors: seq<Diagnostic>
    var start: nat
    var current: nat
    var line: int

    ghost predicate Valid()
      reads this
    {
      start <= current <= |source| && line >= 1
    }

    /** The cursor, line counter, tokens and reports are those after step s,
        taken when the tokens and reports were tokens0 and errors0. */
    ghost predicate Took(s: Step, tokens0: seq<Token>, errors0: seq<Diagnostic>)
      reads this
    {
      && current == s.next
      && line == s.line
      && tokens == tokens0 + Seq(s.token)
      && errors == errors0 + Seq(s.error)
    }

    constructor(source: string)
      ensures this.source == source && Valid()
      ensures tokens == [] && errors == []
      ensures start == 0 && current == 0 && line == 1
    {
      this.source := source;
      tokens := [];
      errors := [];
      start := 0;
      current := 0;
      line := 1;
    }

    /** Scans from the cursor to the end of the source, then appends the
        one EOF token carrying the final line. */
    method ScanTokens() returns (result: seq<Token>)
      requires Valid()
      modifies this
      ensures Valid() && current == |source|
      ensures var r := ScanFrom(source, old(current), old(line));
        && tokens == old(tokens) + r.tokens + [EofToken(r.line)]
        && errors == old(errors) + r.errors
        && line == r.line
      ensures result == tokens
    {
      ghost var all := ScanFrom(source, current, line);
      while !IsAtEnd()
        invariant Valid()
        invariant old(tokens) + all.tokens == tokens + ScanFrom(source, current, line).tokens
        invariant old(errors) + all.errors == errors + ScanFrom(source, current, line).errors
        invariant ScanFrom(source, current, line).line == all.line
        decreases |source| - current
      {
        // The next lexeme starts under the cursor.
        start := current;
        ScanFromStep(source, current, line, tokens, errors);
        ScanToken();
      }
      tokens := tokens + [EofToken(line)];
      result := tokens;
    }

    method ScanToken()
      requires Valid() && start == current < |source|
      modifies this`current, this`line, this`tokens, this`errors
      ensures Valid() && start == old(start)
      ensures Took(ScanStep(source, old(current), old(line)), old(tokens), old(errors))
    {
      ghost var pos, line0 := current, line;
      var c := Advance();
      match c
      case ' ' | '\r' | '\t' =>
        StepBlank(source, pos, line0);
      case '\n' =>
        StepBlank(source, pos, line0);
        line := line + 1;
      case '(' | ')' | '{' | '}' | ',' | '.' | '-' | '+' | ';' | '*' =>
        AddPunctuation(c);
      case '!' | '=' | '<' | '>' =>
        AddOperator(c);
      case '/' =>
        AddSlash();
      case '"' =>
        StepLiteral(source, pos, line0);
        ScanString();
      case _ =>
        StepLiteral(source, pos, line0);
        if IsDigit(c) {
          ScanNumber();
        } else if IsAlpha(c) {
          ScanIdentifier();
        } else {
          StepUnexpected(source, pos, line0);
          Report("Unexpected character.");
        }
    }

    /** Emits the one-character token whose character c was just consumed. */
    method AddPunctuation(c: char)
      requires Valid() && start + 1 == current && source[start] == c && PunctuationKind(c).Some?
      modifies this`tokens
      ensures Took(ScanStep(source, start, line), old(tokens), errors)
    {
      StepPunctuation(source, start, line);
      AddToken(PunctuationKind(c).value, NilValue);
    }

    /** Emits `!`, `=`, `<` or `>` (just consumed as c), taking a following
        `=` into the same token. */
    method AddOperator(c: char)
      requires Valid() && start + 1 == current && source[start] == c && IsOperatorStart(c)
      modifies this`current, this`tokens
      ensures Valid()
      ensures Took(ScanStep(source, start, line), old(tokens), errors)
    {
      StepOperator(source, start, line);
      var equal := Match('=');
      AddToken(OperatorKind(c, equal), NilValue);
    }

    /** A `/` was just consumed: the rest of a comment is skipped, or the
        slash is a token of its own. */
    method AddSlash()
      requires Valid() && start + 1 == current && source[start] == '/'
      modifies this`current, this`tokens
      ensures Valid()
      ensures Took(ScanStep(source, start, line), old(tokens), errors)
    {
      StepSlash(source, start, line);
      var comment := Match('/');
      if comment {
        // Skip the comment text; the line break stays for the next call.
        SkipComment();
      } else {
        AddToken(Slash, NilValue);
      }
    }

    /** Moves the cursor over the rest of a `//` comment, up to the line break. */
    method SkipComment()
      requires current <= |source|
      modifies this`current
      ensures current == CommentEnd(source, old(current))
    {
      while Peek() != '\n' && !IsAtEnd()
        invariant old(current) <= current <= |source|
        invariant CommentEnd(source, current) == CommentEnd(source, old(current))
        decreases |source| - current
      {
        var _ := Advance();
      }
    }

    /** Consumes the next character only when it is the expected one. */
    method Match(expected: char) returns (hit: bool)
      modifies this`current
      ensures hit == (old(current) < |source| && source[old(current)] == expected)
      ensures current == if hit then old(current) + 1 else old(current)
    {
      if IsAtEnd() {
        return false;
      }
      if source[current] != expected {
        return false;
      }
      current := current + 1;
      return true;
    }

    /** The character under the cursor, or NUL at the end. */
    function Peek(): (c: char)
      reads this
      ensures current < |source| ==> c == source[current]
      ensures current >= |source| ==> c == '\0'
    {
      if IsAtEnd() then '\0' else source[current]
    }

    /** The character after the one under the cursor, or NUL past the end. */
    function PeekNext(): (c: char)
      reads this
      ensures current + 1 < |source| ==> c == source[current + 1]
      ensures current + 1 >= |source| ==> c == '\0'
    {
      if current + 1 >= |source| then '\0' else source[current + 1]
    }

    method Advance() returns (c: char)
      requires current < |source|
      modifies this`current
      ensures c == source[old(current)] && current == old(current) + 1
    {
      c := source[current];
      current := current + 1;
    }

    /** The rest of a string literal whose opening quote was just consumed. */
    method ScanString()
      requires Valid() && start < |source| && source[start] == '"' && current == start + 1
      modifies this`current, this`line, this`tokens, this`errors
      ensures Valid() && start == old(start)
      ensures Took(StringStep(source, start, old(line)), old(tokens), old(errors))
    {
      while Peek() != '"' && !IsAtEnd()
        invariant Valid() && start < current
        invariant StringEnd(source, current, line) == StringEnd(source, start + 1, old(line))
        invariant tokens == old(tokens) && errors == old(errors)
        decreases |source| - current
      {
        if Peek() == '\n' {
          line := line + 1;
        }
        var _ := Advance();
      }

      if IsAtEnd() {
        Report("Unterminated string.");
        return;
      }

      // Take the quote that ends the literal.
      var _ := Advance();

      var value := source[start + 1..current - 1];
      AddToken(String, StringValue(value));
    }

    /** The rest of a number literal whose first digit was just consumed. */
    method ScanNumber()
      requires Valid() && start < |source| && IsDigit(source[start]) && current == start + 1
      modifies this`current, this`tokens
      ensures Valid() && start == old(start)
      ensures Took(NumberStep(source, start, line), old(tokens), errors)
    {
      SkipDigits();

      // A dot followed by a digit starts the fraction.
      if Peek() == '.' && IsDigit(PeekNext()) {
        // Take the dot into the lexeme.
        var _ := Advance();
        SkipDigits();
      }

      assert NumberStep(source, start, line).next == current;
      AddToken(Number, NumberValue(source[start..current]));
    }

    /** Moves the cursor over a run of digits. */
    method SkipDigits()
      requires current <= |source|
      modifies this`current
      ensures current == DigitsEnd(source, old(current))
    {
      while IsDigit(Peek())
        invariant old(current) <= current <= |source|
        invariant DigitsEnd(source, current) == DigitsEnd(source, old(current))
        decreases |source| - current
      {
        var _ := Advance();
      }
    }

    /** The rest of an identifier or reserved word whose first letter was
        just consumed. */
    method ScanIdentifier()
      requires Valid() && start < |source| && IsAlpha(source[start]) && current == start + 1
      modifies this`current, this`tokens
      ensures Valid() && start == old(start)
      ensures Took(IdentifierStep(source, start, line), old(tokens), errors)
    {
      while IsAlphaNumeric(Peek())
        invariant Valid() && start < current
        invariant WordEnd(source, current) == WordEnd(source, start + 1)
        invariant tokens == old(tokens)
        decreases |source| - current
      {
        var _ := Advance();
      }

      var text := source[start..current];
      var kind := KeywordKind(text);
      AddToken(kind, NilValue);
    }

    function IsAtEnd(): (b: bool)
      reads this
      ensures b <==> current >= |source|
    {
      current >= |source|
    }

    method AddToken(kind: TokenType, literal: Value)
      requires start <= current <= |source|
      modifies this`tokens
      ensures tokens == old(tokens) + [Token(kind, source[start..current], literal, line)]
    {
      var text := source[start..current];
      tokens := tokens + [Token(kind, text, literal, line)];
    }

    /** Reports an error at the current line; scanning goes on. */
    method Report(message: string)
      modifies this`errors
      ensures errors == old(errors) + [LineError(line, message)]
    {
      errors := errors + [LineError(line, message)];
    }
  }

  /** A fresh scanner run over a whole source: the tokens and the reports
      are those of Lexing.ScanTokens. */
  method ScanSource(source: string) returns (tokens: seq<Token>, errors: seq<Diagnostic>)
    ensures tokens == ScanTokens(source).tokens
    ensures errors == ScanTokens(source).errors
  {
    var scanner := new Scanner(source);
    tokens := scanner.ScanTokens();
    errors := scanner.errors;
  }
}
