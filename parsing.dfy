/** The Parser object: a cursor over a token list, walked by one method per
    grammar rule. A method that would throw a parse error returns None
    instead, after the report has been made; each method is proved to do
    what the matching function of Grammar says. */
module Parsing {
  import opened Wrappers
  import opened Tokens
  import opened Ast
  import Grammar

  class Parser {
    const tokens: seq<Token>
    var current: nat
    /** The reports this parser has made to the error sink, in order. */
    var errors: seq<Diagnostic>

    ghost predicate Valid()
      reads this
    {
      Grammar.WellFormed(tokens) && current < |tokens|
    }

    /** A grammar rule has finished with outcome o, starting from a state
        whose reports were errors0: a tree and the cursor after it, or no
        tree, the cursor on the offending token and one more report. */
    ghost predicate Finished(o: Grammar.Outcome, r: Option<Expr>, errors0: seq<Diagnostic>)
      reads this
    {
      && Valid()
      && match o
        case Parsed(e, next) => r == Some(e) && current == next && errors == errors0
        case Failed(at, message) =>
          r == None && current == at && errors == errors0 + [TokenError(tokens[current], message)]
    }

    constructor(tokens: seq<Token>)
      requires Grammar.WellFormed(tokens)
      ensures this.tokens == tokens && current == 0 && errors == [] && Valid()
    {
      this.tokens := tokens;
      current := 0;
      errors := [];
    }

    /** One expression from the cursor; a syntax error leaves no tree. */
    method Parse() returns (r: Option<Expr>)
      requires Valid()
      modifies this`current, this`errors
      ensures Finished(Grammar.Expression(tokens, old(current)), r, old(errors))
    {
      r := Expression();
    }

    method Expression() returns (r: Option<Expr>)
      requires Valid()
      modifies this`current, this`errors
      ensures Finished(Grammar.Expression(tokens, old(current)), r, old(errors))
      decreases |tokens| - current, 11
    {
      r := Equality();
    }

    method Equality() returns (r: Option<Expr>)
      requires Valid()
      modifies this`current, this`errors
      ensures Finished(Grammar.BinaryLevel(Grammar.EqualityLevel, tokens, old(current)), r, old(errors))
      decreases |tokens| - current, 10
    {
      var first := Comparison();
      if first.None? {
        return None;
      }
      var expr := first.value;
      while true
        invariant Valid() && errors == old(errors)
        invariant Grammar.BinaryLevel(Grammar.EqualityLevel, tokens, old(current))
          == Grammar.Fold(Grammar.EqualityLevel, tokens, expr, current)
        decreases |tokens| - current
      {
        var more := Match([BangEqual, EqualEqual]);
        if !more {
          break;
        }
        var operator := Previous().value;
        assert Grammar.Operand(Grammar.EqualityLevel, tokens, current) == Grammar.BinaryLevel(Grammar.ComparisonLevel, tokens, current);
        var right := Comparison();
        if right.None? {
          return None;
        }
        expr := Binary(expr, operator, right.value);
      }
      return Some(expr);
    }

    method Comparison() returns (r: Option<Expr>)
      requires Valid()
      modifies this`current, this`errors
      ensures Finished(Grammar.BinaryLevel(Grammar.ComparisonLevel, tokens, old(current)), r, old(errors))
      decreases |tokens| - current, 8
    {
      var first := Term();
      if first.None? {
        return None;
      }
      var expr := first.value;
      while true
        invariant Valid() && errors == old(errors)
        invariant Grammar.BinaryLevel(Grammar.ComparisonLevel, tokens, old(current))
          == Grammar.Fold(Grammar.ComparisonLevel, tokens, expr, current)
        decreases |tokens| - current
      {
        var more := Match([Greater, GreaterEqual, Less, LessEqual]);
        if !more {
          break;
        }
        var operator := Previous().value;
        assert Grammar.Operand(Grammar.ComparisonLevel, tokens, current) == Grammar.BinaryLevel(Grammar.TermLevel, tokens, current);
        var right := Term();
        if right.None? {
          return None;
        }
        expr := Binary(expr, operator, right.value);
      }
      return Some(expr);
    }

    method Term() returns (r: Option<Expr>)
      requires Valid()
      modifies this`current, this`errors
      ensures Finished(Grammar.BinaryLevel(Grammar.TermLevel, tokens, old(current)), r, old(errors))
      decreases |tokens| - current, 6
    {
      var first := Factor();
      if first.None? {
        return None;
      }
      var expr := first.value;
      while true
        invariant Valid() && errors == old(errors)
        invariant Grammar.BinaryLevel(Grammar.TermLevel, tokens, old(current))
          == Grammar.Fold(Grammar.TermLevel, tokens, expr, current)
        decreases |tokens| - current
      {
        var more := Match([Minus, Plus]);
        if !more {
          break;
        }
        var operator := Previous().value;
        assert Grammar.Operand(Grammar.TermLevel, tokens, current) == Grammar.BinaryLevel(Grammar.FactorLevel, tokens, current);
        var right := Factor();
        if right.None? {
          return None;
        }
        expr := Binary(expr, operator, right.value);
      }
      return Some(expr);
    }

    method Factor() returns (r: Option<Expr>)
      requires Valid()
      modifies this`current, this`errors
      ensures Finished(Grammar.BinaryLevel(Grammar.FactorLevel, tokens, old(current)), r, old(errors))
      decreases |tokens| - current, 4
    {
      var first := Unary();
      if first.None? {
        return None;
      }
      var expr := first.value;
      while true
        invariant Valid() && errors == old(errors)
        invariant Grammar.BinaryLevel(Grammar.FactorLevel, tokens, old(current))
          == Grammar.Fold(Grammar.FactorLevel, tokens, expr, current)
        decreases |tokens| - current
      {
        var more := Match([Slash, Star]);
        if !more {
          break;
        }
        var operator := Previous().value;
        assert Grammar.Operand(Grammar.FactorLevel, tokens, current) == Grammar.Unary(tokens, current);
        var right := Unary();
        if right.None? {
          return None;
        }
        expr := Binary(expr, operator, right.value);
      }
      return Some(expr);
    }

    method Unary() returns (r: Option<Expr>)
      requires Valid()
      modifies this`current, this`errors
      ensures Finished(Grammar.Unary(tokens, old(current)), r, old(errors))
      decreases |tokens| - current, 2
    {
      var prefixed := Match([Bang, Minus]);
      if prefixed {
        var operator := Previous().value;
        assert Grammar.Operand(Grammar.FactorLevel, tokens, current) == Grammar.Unary(tokens, current);
        var right := Unary();
        if right.None? {
          return None;
        }
        return Some(Ast.Unary(operator, right.value));
      }
      r := Primary();
    }

    method Primary() returns (r: Option<Expr>)
      requires Valid()
      modifies this`current, this`errors
      ensures Finished(Grammar.Primary(tokens, old(current)), r, old(errors))
      decreases |tokens| - current, 1
    {
      var hit := Match([False]);
      if hit {
        assert Grammar.Primary(tokens, old(current)) == Grammar.Parsed(Literal(BoolValue(false)), current);
        return Some(Literal(BoolValue(false)));
      }
      hit := Match([True]);
      if hit {
        assert Grammar.Primary(tokens, old(current)) == Grammar.Parsed(Literal(BoolValue(true)), current);
        return Some(Literal(BoolValue(true)));
      }
      hit := Match([Nil]);
      if hit {
        assert Grammar.Primary(tokens, old(current)) == Grammar.Parsed(Literal(NilValue), current);
        return Some(Literal(NilValue));
      }
      hit := Match([Number, String]);
      if hit {
        assert Grammar.Primary(tokens, old(current)) == Grammar.Parsed(Literal(tokens[current - 1].literal), current);
        return Some(Literal(Previous().value.literal));
      }
      hit := Match([LeftParen]);
      if hit {
        assert Grammar.Primary(tokens, old(current)) == Grammar.Group(tokens, current);
        r := Group();
        return;
      }
      assert Grammar.Primary(tokens, old(current)) == Grammar.Failed(current, "Expect expression.");
      Error(Peek(), "Expect expression.");
      return None;
    }

    /** The parenthesised branch of primary, once "(" is matched. */
    method Group() returns (r: Option<Expr>)
      requires Valid()
      modifies this`current, this`errors
      ensures Finished(Grammar.Group(tokens, old(current)), r, old(errors))
      decreases |tokens| - current, 12
    {
      var inner := Expression();
      if inner.None? {
        return None;
      }
      var closing := Consume(RightParen, "Expect ')' after expression.");
      if closing.None? {
        return None;
      }
      return Some(Grouping(inner.value));
    }

    /** match: advances over the token under the cursor when it has one of
        the kinds, and says whether it did. */
    method Match(kinds: seq<TokenType>) returns (hit: bool)
      requires Valid()
      modifies this`current
      ensures Valid()
      ensures hit == Grammar.Matches(tokens, old(current), kinds)
      ensures current == if hit then old(current) + 1 else old(current)
    {
      for i := 0 to |kinds|
        invariant current == old(current)
        invariant !Grammar.Matches(tokens, current, kinds[..i])
      {
        if Check(kinds[i]) {
          var _ := Advance();
          return true;
        }
      }
      assert kinds[..|kinds|] == kinds;
      return false;
    }

    /** consume: the expected token, advancing over it, or a report at the
        token under the cursor and no token. */
    method Consume(kind: TokenType, message: string) returns (t: Option<Token>)
      requires Valid()
      modifies this`current, this`errors
      ensures Valid()
      ensures Grammar.Check(tokens, old(current), kind) ==>
        t == Some(tokens[old(current)]) && current == old(current) + 1 && errors == old(errors)
      ensures !Grammar.Check(tokens, old(current), kind) ==>
        t == None && current == old(current) && errors == old(errors) + [TokenError(tokens[current], message)]
    {
      if Check(kind) {
        t := Advance();
        return;
      }
      Error(Peek(), message);
      return None;
    }

    function Check(kind: TokenType): (r: bool)
      requires Valid()
      reads this
      ensures r == Grammar.Check(tokens, current, kind)
    {
      if IsAtEnd() then false else Peek().kind == kind
    }

    /** advance: one step on unless at EOF, then the token just passed. */
    method Advance() returns (t: Option<Token>)
      requires Valid()
      modifies this`current
      ensures Valid() && current == Grammar.Advanced(tokens, old(current))
      ensures t == Previous()
    {
      if !IsAtEnd() {
        current := current + 1;
      }
      t := Previous();
    }

    function IsAtEnd(): (r: bool)
      requires Valid()
      reads this
      ensures r == Grammar.AtEnd(tokens, current)
    {
      Peek().kind == Eof
    }

    function Peek(): Token
      requires Valid()
      reads this
    {
      tokens[current]
    }

    /** The token before the cursor; there is none before the first. */
    function Previous(): (t: Option<Token>)
      requires Valid()
      reads this
      ensures t.Some? <==> current > 0
      ensures t.Some? ==> t.value == tokens[current - 1]
    {
      if current == 0 then None else Some(tokens[current - 1])
    }

    /** error: reports the message at the token. */
    method Error(token: Token, message: string)
      modifies this`errors
      ensures errors == old(errors) + [TokenError(token, message)]
    {
      errors := errors + [TokenError(token, message)];
    }

    /** synchronize: skips tokens up to the next likely statement boundary. */
    method Synchronize()
      requires Valid()
      modifies this`current
      ensures Valid() && current == Grammar.Synchronize(tokens, old(current))
    {
      var _ := Advance();
      while !IsAtEnd()
        invariant Valid() && (current > 0 || Grammar.AtEnd(tokens, current))
        invariant Grammar.SyncLoop(tokens, current) == Grammar.Synchronize(tokens, old(current))
        decreases |tokens| - current
      {
        if Previous().value.kind == Semicolon {
          return;
        }
        if Grammar.StartsStatement(Peek().kind) {
          return;
        }
        var _ := Advance();
      }
    }
  }

  /** A fresh parser over the tokens, run once: the tree and the reports are
      those parse promises. */
  method ParseTokens(tokens: seq<Token>) returns (tree: Option<Expr>, errors: seq<Diagnostic>)
    requires Grammar.WellFormed(tokens)
    ensures Grammar.Parse(tokens) == Grammar.ParseResult(tree, errors)
  {
    var parser := new Parser(tokens);
    tree := parser.Parse();
    errors := parser.errors;
  }
}
