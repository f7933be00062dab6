/** What the grammar functions promise. Every tree the parser builds respects
    precedence and left associativity (Shaped); every failure is explained by
    the token it is reported at; writing a well-shaped tree back out as
    tokens and parsing them gives the same tree; and synchronize stops
    exactly at the first statement boundary. */
module GrammarFacts {
  import opened Wrappers
  import opened Tokens
  import opened Ast
  import opened Grammar

  /** The binding strength of a binary operator kind, 0 for any other kind. */
  function Precedence(kind: TokenType): nat
  {
    if kind in Operators(EqualityLevel) then 1
    else if kind in Operators(ComparisonLevel) then 2
    else if kind in Operators(TermLevel) then 3
    else if kind in Operators(FactorLevel) then 4
    else 0
  }

  /** The operators of a level are exactly the kinds of its strength. */
  lemma PrecedenceRank(l: Level, kind: TokenType)
    ensures kind in Operators(l) <==> Precedence(kind) == Rank(l)
  {
  }

  /** How tightly a tree holds together: a binary node as tight as its
      operator, a unary node tighter than any binary one, and a literal or a
      group tightest. */
  function Strength(e: Expr): nat
  {
    match e
    case Binary(_, operator, _) => Precedence(operator.kind)
    case Unary(_, _) => 5
    case _ => 6
  }

  /** The trees the parser can build: binary operators are binary operator
      kinds, a left operand binds at least as tightly as its operator and a
      right operand strictly more tightly (left associativity), and a unary
      operator is `!` or `-` over a unary expression or a primary. */
  predicate Shaped(e: Expr)
  {
    match e
    case Binary(left, operator, right) =>
      var p := Precedence(operator.kind);
      && p > 0 && Strength(left) >= p && Strength(right) > p
      && Shaped(left) && Shaped(right)
    case Grouping(expression) => Shaped(expression)
    case Literal(_) => true
    case Unary(operator, right) =>
      operator.kind in [Bang, Minus] && Strength(right) >= 5 && Shaped(right)
  }

  lemma StrengthPositive(e: Expr)
    requires Shaped(e)
    ensures Strength(e) >= 1
  {
  }

  /** The kinds a unary expression or a primary can begin with. */
  const ExpressionStarts: seq<TokenType> := [Bang, Minus, False, True, Nil, Number, String, LeftParen]

  /** A parse outcome is explained: a tree is shaped and at least as tight as
      floor; a failure is reported at a token that cannot begin an
      expression, or that is not the closing parenthesis expected there. */
  predicate Explained(toks: seq<Token>, o: Outcome, floor: nat)
  {
    match o
    case Parsed(e, _) => Shaped(e) && Strength(e) >= floor
    case Failed(at, message) =>
      && at < |toks|
      && ((message == "Expect expression." && toks[at].kind !in ExpressionStarts)
          || (message == "Expect ')' after expression." && toks[at].kind != RightParen))
  }

  lemma {:induction false} ExpressionExplained(toks: seq<Token>, pos: nat)
    requires WellFormed(toks) && pos < |toks|
    ensures Explained(toks, Expression(toks, pos), 1)
    decreases |toks| - pos, 11
  {
    LevelExplained(EqualityLevel, toks, pos);
  }

  lemma {:induction false} LevelExplained(l: Level, toks: seq<Token>, pos: nat)
    requires WellFormed(toks) && pos < |toks|
    ensures Explained(toks, BinaryLevel(l, toks, pos), Rank(l))
    decreases |toks| - pos, 2 * Height(l) + 2
  {
    OperandExplained(l, toks, pos);
    var first := Operand(l, toks, pos);
    if first.Parsed? {
      FoldExplained(l, toks, first.expr, first.next);
    }
  }

  lemma {:induction false} OperandExplained(l: Level, toks: seq<Token>, pos: nat)
    requires WellFormed(toks) && pos < |toks|
    ensures Explained(toks, Operand(l, toks, pos), Rank(l) + 1)
    decreases |toks| - pos, 2 * Height(l) + 1
  {
    if l.FactorLevel? {
      UnaryExplained(toks, pos);
    } else {
      LevelExplained(Tighter(l), toks, pos);
    }
  }

  lemma {:induction false} FoldExplained(l: Level, toks: seq<Token>, left: Expr, pos: nat)
    requires WellFormed(toks) && pos < |toks|
    requires Shaped(left) && Strength(left) >= Rank(l)
    ensures Explained(toks, Fold(l, toks, left, pos), Rank(l))
    decreases |toks| - pos, 0
  {
    if Matches(toks, pos, Operators(l)) {
      OperandExplained(l, toks, pos + 1);
      var right := Operand(l, toks, pos + 1);
      if right.Parsed? {
        PrecedenceRank(l, toks[pos].kind);
        FoldExplained(l, toks, Binary(left, toks[pos], right.expr), right.next);
      }
    }
  }

  lemma {:induction false} UnaryExplained(toks: seq<Token>, pos: nat)
    requires WellFormed(toks) && pos < |toks|
    ensures Explained(toks, Grammar.Unary(toks, pos), 5)
    decreases |toks| - pos, 2
  {
    if Matches(toks, pos, [Bang, Minus]) {
      UnaryExplained(toks, pos + 1);
    } else {
      PrimaryExplained(toks, pos);
    }
  }

  lemma {:induction false} PrimaryExplained(toks: seq<Token>, pos: nat)
    requires WellFormed(toks) && pos < |toks|
    requires !Matches(toks, pos, [Bang, Minus])
    ensures Explained(toks, Primary(toks, pos), 6)
    decreases |toks| - pos, 1
  {
    if Matches(toks, pos, [False]) || Matches(toks, pos, [True]) || Matches(toks, pos, [Nil])
      || Matches(toks, pos, [Number, String])
    {
    } else if Matches(toks, pos, [LeftParen]) {
      GroupExplained(toks, pos + 1);
    } else {
      NoExpressionStart(toks, pos);
    }
  }

  /** A token no primary and no prefix operator matches cannot begin an
      expression. */
  lemma NoExpressionStart(toks: seq<Token>, pos: nat)
    requires pos < |toks|
    requires !Matches(toks, pos, [Bang, Minus]) && !Matches(toks, pos, [False])
    requires !Matches(toks, pos, [True]) && !Matches(toks, pos, [Nil])
    requires !Matches(toks, pos, [Number, String]) && !Matches(toks, pos, [LeftParen])
    ensures toks[pos].kind !in ExpressionStarts
  {
  }

  lemma {:induction false} GroupExplained(toks: seq<Token>, pos: nat)
    requires WellFormed(toks) && pos < |toks|
    ensures Explained(toks, Group(toks, pos), 6)
    decreases |toks| - pos, 12
  {
    ExpressionExplained(toks, pos);
  }

  /** parse reports nothing exactly when it returns a tree, and that tree is
      shaped; otherwise it reports one error, at a token of the input, that
      the token explains. */
  lemma ParseReports(toks: seq<Token>)
    requires WellFormed(toks)
    ensures var p := Parse(toks);
      && (p.tree.Some? <==> p.errors == [])
      && (p.tree.Some? ==> Shaped(p.tree.value))
      && (p.tree.None? ==>
            && |p.errors| == 1 && p.errors[0].TokenError? && p.errors[0].token in toks
            && ((p.errors[0].message == "Expect expression." && p.errors[0].token.kind !in ExpressionStarts)
                || (p.errors[0].message == "Expect ')' after expression." && p.errors[0].token.kind != RightParen)))
  {
    ExpressionExplained(toks, 0);
  }

  /** The token a literal value is read from. */
  function LiteralToken(v: Value): (t: Token)
    ensures t.kind in [False, True, Nil, Number, String]
  {
    match v
    case NilValue => Token(Nil, "nil", NilValue, 1)
    case BoolValue(b) => if b then Token(True, "true", NilValue, 1) else Token(False, "false", NilValue, 1)
    case NumberValue(lexeme) => Token(Number, lexeme, v, 1)
    case StringValue(text) => Token(String, "\"" + text + "\"", v, 1)
  }

  const OpenParen := Token(LeftParen, "(", NilValue, 1)
  const CloseParen := Token(RightParen, ")", NilValue, 1)

  /** A tree written back out as tokens, in source order. */
  function Unparsed(e: Expr): (ts: seq<Token>)
    ensures |ts| >= 1
  {
    match e
    case Binary(left, operator, right) => Unparsed(left) + [operator] + Unparsed(right)
    case Grouping(expression) => [OpenParen] + Unparsed(expression) + [CloseParen]
    case Literal(value) => [LiteralToken(value)]
    case Unary(operator, right) => [operator] + Unparsed(right)
  }

  /** ts occurs in toks from pos on, token by token. */
  predicate At(toks: seq<Token>, pos: nat, ts: seq<Token>)
    decreases |ts|
  {
    if ts == [] then pos <= |toks|
    else pos < |toks| && toks[pos] == ts[0] && At(toks, pos + 1, ts[1..])
  }

  lemma {:induction false} AtBound(toks: seq<Token>, pos: nat, ts: seq<Token>)
    requires At(toks, pos, ts)
    ensures pos + |ts| <= |toks|
    decreases |ts|
  {
    if ts != [] {
      AtBound(toks, pos + 1, ts[1..]);
    }
  }

  /** A slice of the token list occurs where it was taken. */
  lemma {:induction false} AtSlice(toks: seq<Token>, pos: nat, n: nat)
    requires pos + n <= |toks|
    ensures At(toks, pos, toks[pos..pos + n])
    decreases n
  {
    if n > 0 {
      AtSlice(toks, pos + 1, n - 1);
      assert toks[pos..pos + n][1..] == toks[pos + 1..pos + n];
    }
  }

  lemma {:induction false} AtSplit(toks: seq<Token>, pos: nat, a: seq<Token>, b: seq<Token>)
    requires At(toks, pos, a + b)
    ensures At(toks, pos, a) && At(toks, pos + |a|, b)
    decreases |a|
  {
    if a == [] {
      assert a + b == b;
      AtBound(toks, pos, b);
    } else {
      assert (a + b)[1..] == a[1..] + b;
      AtSplit(toks, pos + 1, a[1..], b);
    }
  }

  lemma AtOne(toks: seq<Token>, pos: nat, t: Token)
    requires At(toks, pos, [t])
    ensures pos < |toks| && toks[pos] == t
  {
  }

  /** Where the parts of a binary node's tokens lie. */
  lemma AtBinary(toks: seq<Token>, pos: nat, e: Expr)
    requires e.Binary? && At(toks, pos, Unparsed(e))
    ensures At(toks, pos, Unparsed(e.left))
    ensures pos + |Unparsed(e.left)| < |toks| && toks[pos + |Unparsed(e.left)|] == e.operator
    ensures At(toks, pos + |Unparsed(e.left)| + 1, Unparsed(e.right))
    ensures |Unparsed(e)| == |Unparsed(e.left)| + 1 + |Unparsed(e.right)|
  {
    AtSplit(toks, pos, Unparsed(e.left) + [e.operator], Unparsed(e.right));
    AtSplit(toks, pos, Unparsed(e.left), [e.operator]);
    AtOne(toks, pos + |Unparsed(e.left)|, e.operator);
  }

  /** Where the parts of a unary node's tokens lie. */
  lemma AtUnary(toks: seq<Token>, pos: nat, e: Expr)
    requires e.Unary? && At(toks, pos, Unparsed(e))
    ensures pos < |toks| && toks[pos] == e.operator
    ensures At(toks, pos + 1, Unparsed(e.right))
    ensures |Unparsed(e)| == 1 + |Unparsed(e.right)|
  {
    AtSplit(toks, pos, [e.operator], Unparsed(e.right));
    AtOne(toks, pos, e.operator);
  }

  /** Where the parts of a grouping's tokens lie. */
  lemma AtGroup(toks: seq<Token>, pos: nat, e: Expr)
    requires e.Grouping? && At(toks, pos, Unparsed(e))
    ensures pos < |toks| && toks[pos] == OpenParen
    ensures At(toks, pos + 1, Unparsed(e.expression))
    ensures pos + 1 + |Unparsed(e.expression)| < |toks|
    ensures toks[pos + 1 + |Unparsed(e.expression)|] == CloseParen
    ensures |Unparsed(e)| == |Unparsed(e.expression)| + 2
  {
    AtSplit(toks, pos, [OpenParen] + Unparsed(e.expression), [CloseParen]);
    AtSplit(toks, pos, [OpenParen], Unparsed(e.expression));
    AtOne(toks, pos, OpenParen);
    AtOne(toks, pos + 1 + |Unparsed(e.expression)|, CloseParen);
  }

  /** The first token of a literal or a grouping. */
  lemma AtPrimary(toks: seq<Token>, pos: nat, e: Expr)
    requires (e.Literal? || e.Grouping?) && At(toks, pos, Unparsed(e))
    ensures pos < |toks| && toks[pos] == Unparsed(e)[0]
  {
  }

  /** Parsing at a binary level from the start of a shaped tree at least as
      tight as the level, followed by a token that binds no more tightly,
      reaches the loop of the level with the whole tree as its left operand. */
  lemma {:induction false} LevelFold(l: Level, e: Expr, toks: seq<Token>, pos: nat)
    requires WellFormed(toks) && Shaped(e) && Strength(e) >= Rank(l)
    requires At(toks, pos, Unparsed(e)) && pos + |Unparsed(e)| < |toks|
    requires Precedence(toks[pos + |Unparsed(e)|].kind) <= Rank(l)
    ensures BinaryLevel(l, toks, pos) == Fold(l, toks, e, pos + |Unparsed(e)|)
    decreases Size(e), 4 * Height(l) + 3
  {
    if Strength(e) > Rank(l) {
      OperandRound(l, e, toks, pos);
    } else {
      LevelFoldBinary(l, e, toks, pos);
    }
  }

  /** The same for a tree whose top operator belongs to the level: its left
      operand is parsed first, and one turn of the loop adds the rest. */
  lemma {:induction false} LevelFoldBinary(l: Level, e: Expr, toks: seq<Token>, pos: nat)
    requires WellFormed(toks) && Shaped(e) && e.Binary? && Precedence(e.operator.kind) == Rank(l)
    requires At(toks, pos, Unparsed(e)) && pos + |Unparsed(e)| < |toks|
    requires Precedence(toks[pos + |Unparsed(e)|].kind) <= Rank(l)
    ensures BinaryLevel(l, toks, pos) == Fold(l, toks, e, pos + |Unparsed(e)|)
    decreases Size(e), 4 * Height(l) + 2
  {
    AtBinary(toks, pos, e);
    ShapedParts(l, e);
    var mid := pos + |Unparsed(e.left)|;
    var end := pos + |Unparsed(e)|;
    calc {
      BinaryLevel(l, toks, pos);
      { LevelFold(l, e.left, toks, pos); }
      Fold(l, toks, e.left, mid);
      { OperandRound(l, e.right, toks, mid + 1);
        FoldStep(l, toks, e.left, mid, e, end); }
      Fold(l, toks, e, end);
    }
  }

  /** The parts of a shaped binary node of level l. */
  lemma ShapedParts(l: Level, e: Expr)
    requires Shaped(e) && e.Binary? && Precedence(e.operator.kind) == Rank(l)
    ensures Shaped(e.left) && Strength(e.left) >= Rank(l)
    ensures Shaped(e.right) && Strength(e.right) > Rank(l)
    ensures e.operator.kind in Operators(l)
  {
    PrecedenceRank(l, e.operator.kind);
  }

  /** One turn of the loop of a binary level. */
  lemma FoldStep(l: Level, toks: seq<Token>, left: Expr, pos: nat, e: Expr, next: nat)
    requires WellFormed(toks) && pos + 1 < |toks|
    requires e.Binary? && e.left == left && e.operator == toks[pos]
    requires toks[pos].kind in Operators(l) && Operand(l, toks, pos + 1) == Parsed(e.right, next)
    ensures Fold(l, toks, left, pos) == Fold(l, toks, e, next)
  {
  }

  /** An operand of a level parses a whole shaped tree tighter than the
      level when the token after it binds no more tightly than the level. */
  lemma {:induction false} OperandRound(l: Level, e: Expr, toks: seq<Token>, pos: nat)
    requires WellFormed(toks) && Shaped(e) && Strength(e) > Rank(l)
    requires At(toks, pos, Unparsed(e)) && pos + |Unparsed(e)| < |toks|
    requires Precedence(toks[pos + |Unparsed(e)|].kind) <= Rank(l)
    ensures Operand(l, toks, pos) == Parsed(e, pos + |Unparsed(e)|)
    decreases Size(e), 4 * Height(l)
  {
    if l.FactorLevel? {
      UnaryRound(e, toks, pos);
    } else {
      LevelFold(Tighter(l), e, toks, pos);
      PrecedenceRank(Tighter(l), toks[pos + |Unparsed(e)|].kind);
    }
  }

  lemma {:induction false} UnaryRound(e: Expr, toks: seq<Token>, pos: nat)
    requires WellFormed(toks) && Shaped(e) && Strength(e) >= 5
    requires At(toks, pos, Unparsed(e)) && pos + |Unparsed(e)| < |toks|
    ensures Grammar.Unary(toks, pos) == Parsed(e, pos + |Unparsed(e)|)
    decreases Size(e), 3
  {
    if e.Unary? {
      PrefixRound(e, toks, pos);
    } else {
      AtPrimary(toks, pos, e);
      PrimaryRound(e, toks, pos);
    }
  }

  lemma {:induction false} PrefixRound(e: Expr, toks: seq<Token>, pos: nat)
    requires WellFormed(toks) && Shaped(e) && e.Unary?
    requires At(toks, pos, Unparsed(e)) && pos + |Unparsed(e)| < |toks|
    ensures Grammar.Unary(toks, pos) == Parsed(e, pos + |Unparsed(e)|)
    decreases Size(e), 2
  {
    AtUnary(toks, pos, e);
    UnaryRound(e.right, toks, pos + 1);
  }

  lemma {:induction false} PrimaryRound(e: Expr, toks: seq<Token>, pos: nat)
    requires WellFormed(toks) && Shaped(e) && (e.Literal? || e.Grouping?)
    requires At(toks, pos, Unparsed(e)) && pos + |Unparsed(e)| < |toks|
    ensures Primary(toks, pos) == Parsed(e, pos + |Unparsed(e)|)
    decreases Size(e), 1
  {
    if e.Literal? {
      AtPrimary(toks, pos, e);
    } else {
      GroupRound(e, toks, pos);
    }
  }

  lemma {:induction false} GroupRound(e: Expr, toks: seq<Token>, pos: nat)
    requires WellFormed(toks) && Shaped(e) && e.Grouping?
    requires At(toks, pos, Unparsed(e)) && pos + |Unparsed(e)| < |toks|
    ensures Primary(toks, pos) == Parsed(e, pos + |Unparsed(e)|)
    decreases Size(e), 0
  {
    AtGroup(toks, pos, e);
    StrengthPositive(e.expression);
    LevelRound(EqualityLevel, e.expression, toks, pos + 1);
    PrimaryGroup(toks, pos, e, pos + 1 + |Unparsed(e.expression)|);
  }

  /** primary on an opening parenthesis, a parsed expression and the
      closing parenthesis. */
  lemma PrimaryGroup(toks: seq<Token>, pos: nat, e: Expr, next: nat)
    requires WellFormed(toks) && pos + 1 < |toks| && next < |toks|
    requires e.Grouping? && toks[pos].kind == LeftParen && toks[next].kind == RightParen
    requires Expression(toks, pos + 1) == Parsed(e.expression, next)
    ensures Primary(toks, pos) == Parsed(e, next + 1)
  {
  }

  /** A binary level parses a whole shaped tree at least as tight as the
      level when the token after it binds more loosely than the level. */
  lemma {:induction false} LevelRound(l: Level, e: Expr, toks: seq<Token>, pos: nat)
    requires WellFormed(toks) && Shaped(e) && Strength(e) >= Rank(l)
    requires At(toks, pos, Unparsed(e)) && pos + |Unparsed(e)| < |toks|
    requires Precedence(toks[pos + |Unparsed(e)|].kind) < Rank(l)
    ensures BinaryLevel(l, toks, pos) == Parsed(e, pos + |Unparsed(e)|)
    decreases Size(e), 4 * Height(l) + 4
  {
    LevelFold(l, e, toks, pos);
    PrecedenceRank(l, toks[pos + |Unparsed(e)|].kind);
  }

  /** Parsing the tokens of a shaped tree, then EOF, gives the tree back and
      reports nothing. */
  lemma ParseUnparsed(e: Expr, eof: Token)
    requires Shaped(e) && eof.kind == Eof
    ensures WellFormed(Unparsed(e) + [eof])
    ensures Parse(Unparsed(e) + [eof]) == ParseResult(Some(e), [])
  {
    var toks := Unparsed(e) + [eof];
    assert toks[0..|Unparsed(e)|] == Unparsed(e);
    AtSlice(toks, 0, |Unparsed(e)|);
    StrengthPositive(e);
    LevelRound(EqualityLevel, e, toks, 0);
  }

  /** Where synchronize may stop: at EOF, just after a semicolon, or just
      before a statement keyword. */
  predicate Boundary(toks: seq<Token>, pos: nat)
    requires 0 < pos < |toks|
  {
    AtEnd(toks, pos) || toks[pos - 1].kind == Semicolon || StartsStatement(toks[pos].kind)
  }

  /** The loop of synchronize stops at the first boundary from where it
      starts, or at EOF. */
  lemma {:induction false} SyncLoopStops(toks: seq<Token>, pos: nat)
    requires WellFormed(toks) && pos < |toks|
    requires pos > 0 || AtEnd(toks, pos)
    ensures var r := SyncLoop(toks, pos);
      && (r == 0 ==> AtEnd(toks, r))
      && (r > 0 ==> Boundary(toks, r))
      && forall j :: pos <= j < r ==> j > 0 && !Boundary(toks, j)
    decreases |toks| - pos
  {
    if !AtEnd(toks, pos) && toks[pos - 1].kind != Semicolon && !StartsStatement(toks[pos].kind) {
      SyncLoopStops(toks, pos + 1);
    }
  }

  /** synchronize leaves the cursor at the first boundary after the token
      under it, or at EOF when it started there. */
  lemma SynchronizeStops(toks: seq<Token>, pos: nat)
    requires WellFormed(toks) && pos < |toks|
    ensures var r := Synchronize(toks, pos);
      && (AtEnd(toks, pos) ==> r == pos)
      && (!AtEnd(toks, pos) ==> pos < r && Boundary(toks, r))
      && forall j :: pos < j < r ==> !Boundary(toks, j)
  {
    SyncLoopStops(toks, Advanced(toks, pos));
  }

  /** Number tokens and operators for the examples below. */
  function NumberToken(text: string): Token
  {
    LiteralToken(NumberValue(text))
  }

  function OperatorToken(kind: TokenType, text: string): Token
  {
    Token(kind, text, NilValue, 1)
  }

  /** `1 - 2 - 3` is (1 - 2) - 3: a binary level folds to the left. */
  lemma SubtractionGroupsLeft(eof: Token)
    requires eof.kind == Eof
    ensures var minus := OperatorToken(Minus, "-");
      Parse([NumberToken("1"), minus, NumberToken("2"), minus, NumberToken("3"), eof])
        == ParseResult(Some(Binary(Binary(Literal(NumberValue("1")), minus, Literal(NumberValue("2"))),
                                   minus, Literal(NumberValue("3")))), [])
  {
    var minus := OperatorToken(Minus, "-");
    var e := Binary(Binary(Literal(NumberValue("1")), minus, Literal(NumberValue("2"))),
                    minus, Literal(NumberValue("3")));
    ParseUnparsed(e, eof);
    assert Unparsed(e) + [eof] == [NumberToken("1"), minus, NumberToken("2"), minus, NumberToken("3"), eof];
  }

  /** `1 + 2 * 3` is 1 + (2 * 3): factor binds more tightly than term. */
  lemma ProductBindsTighter(eof: Token)
    requires eof.kind == Eof
    ensures var plus, star := OperatorToken(Plus, "+"), OperatorToken(Star, "*");
      Parse([NumberToken("1"), plus, NumberToken("2"), star, NumberToken("3"), eof])
        == ParseResult(Some(Binary(Literal(NumberValue("1")), plus,
                                   Binary(Literal(NumberValue("2")), star, Literal(NumberValue("3"))))), [])
  {
    var plus, star := OperatorToken(Plus, "+"), OperatorToken(Star, "*");
    var e := Binary(Literal(NumberValue("1")), plus,
                    Binary(Literal(NumberValue("2")), star, Literal(NumberValue("3"))));
    ParseUnparsed(e, eof);
    assert Unparsed(e) + [eof] == [NumberToken("1"), plus, NumberToken("2"), star, NumberToken("3"), eof];
  }

  /** `(1` is reported at EOF, where the closing parenthesis was expected. */
  lemma UnclosedGroup(eof: Token)
    requires eof.kind == Eof
    ensures Parse([OpenParen, NumberToken("1"), eof])
      == ParseResult(None, [TokenError(eof, "Expect ')' after expression.")])
  {
    var toks := [OpenParen, NumberToken("1"), eof];
    var one := Literal(NumberValue("1"));
    var failure := Failed(2, "Expect ')' after expression.");
    assert At(toks, 1, Unparsed(one));
    LevelRound(EqualityLevel, one, toks, 1);
    assert Group(toks, 1) == failure;
    assert Grammar.Unary(toks, 0) == failure;
    assert BinaryLevel(FactorLevel, toks, 0) == failure;
    assert BinaryLevel(TermLevel, toks, 0) == failure;
    assert BinaryLevel(ComparisonLevel, toks, 0) == failure;
    assert BinaryLevel(EqualityLevel, toks, 0) == failure;
  }

  /** `- - 1` nests to the right: a prefix operator applies to a unary
      expression. */
  lemma PrefixNests(eof: Token)
    requires eof.kind == Eof
    ensures var minus := OperatorToken(Minus, "-");
      Parse([minus, minus, NumberToken("1"), eof])
        == ParseResult(Some(Ast.Unary(minus, Ast.Unary(minus, Literal(NumberValue("1"))))), [])
  {
    var minus := OperatorToken(Minus, "-");
    var e := Ast.Unary(minus, Ast.Unary(minus, Literal(NumberValue("1"))));
    ParseUnparsed(e, eof);
    assert Unparsed(e) + [eof] == [minus, minus, NumberToken("1"), eof];
  }

  /** parse stops after one expression: `1 2` gives the literal 1 and
      leaves the cursor on `2`, with nothing reported. */
  lemma TrailingTokensIgnored(eof: Token)
    requires eof.kind == Eof
    ensures Expression([NumberToken("1"), NumberToken("2"), eof], 0) == Parsed(Literal(NumberValue("1")), 1)
    ensures Parse([NumberToken("1"), NumberToken("2"), eof]) == ParseResult(Some(Literal(NumberValue("1"))), [])
  {
    var toks := [NumberToken("1"), NumberToken("2"), eof];
    var one := Literal(NumberValue("1"));
    assert At(toks, 0, Unparsed(one));
    LevelRound(EqualityLevel, one, toks, 0);
  }

  /** An empty token list (EOF alone) is reported at EOF as a missing
      expression. */
  lemma NothingToParse(eof: Token)
    requires eof.kind == Eof
    ensures Parse([eof]) == ParseResult(None, [TokenError(eof, "Expect expression.")])
  {
    var toks := [eof];
    var failure := Failed(0, "Expect expression.");
    assert Primary(toks, 0) == failure;
    assert Grammar.Unary(toks, 0) == failure;
    assert BinaryLevel(FactorLevel, toks, 0) == failure;
    assert BinaryLevel(TermLevel, toks, 0) == failure;
    assert BinaryLevel(ComparisonLevel, toks, 0) == failure;
    assert BinaryLevel(EqualityLevel, toks, 0) == failure;
  }
}
