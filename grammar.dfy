/** The recursive-descent parser as pure functions of the token list and a
    cursor: what each grammar rule returns and where it leaves the cursor,
    or where and why it gives up. The Parser class is proved to follow
    these. */
module Grammar {
  import opened Wrappers
  import opened Tokens
  import opened Ast

  /** A token list the parser can walk: it ends with EOF, as every scan does. */
  predicate WellFormed(toks: seq<Token>)
  {
    |toks| > 0 && toks[|toks| - 1].kind == Eof
  }

  predicate AtEnd(toks: seq<Token>, pos: nat)
    requires pos < |toks|
  {
    toks[pos].kind == Eof
  }

  /** check: the token under the cursor has the kind, and it is not EOF. */
  predicate Check(toks: seq<Token>, pos: nat, kind: TokenType)
    requires pos < |toks|
  {
    !AtEnd(toks, pos) && toks[pos].kind == kind
  }

  /** match: check succeeds for one of the kinds. */
  predicate Matches(toks: seq<Token>, pos: nat, kinds: seq<TokenType>)
    requires pos < |toks|
  {
    !AtEnd(toks, pos) && toks[pos].kind in kinds
  }

  /** The cursor after advance: one step on, except at EOF. */
  function Advanced(toks: seq<Token>, pos: nat): (next: nat)
    requires WellFormed(toks) && pos < |toks|
    ensures next < |toks|
    ensures next == if AtEnd(toks, pos) then pos else pos + 1
  {
    if AtEnd(toks, pos) then pos else pos + 1
  }

  /** What a grammar rule does: it builds a tree and leaves the cursor at
      next, or reports message at the token under the cursor `at` and
      unwinds. */
  datatype Outcome = Parsed(expr: Expr, next: nat) | Failed(at: nat, message: string)

  /** The binary precedence levels, loosest first. */
  datatype Level = EqualityLevel | ComparisonLevel | TermLevel | FactorLevel

  function Operators(l: Level): seq<TokenType>
  {
    match l
    case EqualityLevel => [BangEqual, EqualEqual]
    case ComparisonLevel => [Greater, GreaterEqual, Less, LessEqual]
    case TermLevel => [Minus, Plus]
    case FactorLevel => [Slash, Star]
  }

  /** Binding strength: 1 for equality up to 4 for factor. */
  function Rank(l: Level): nat
  {
    match l
    case EqualityLevel => 1
    case ComparisonLevel => 2
    case TermLevel => 3
    case FactorLevel => 4
  }

  /** Levels still to descend through below l: 4 for equality, 1 for factor. */
  function Height(l: Level): nat
  {
    5 - Rank(l)
  }

  /** The next tighter level; factor's operands are unary expressions. */
  function Tighter(l: Level): Level
    requires !l.FactorLevel?
  {
    match l
    case EqualityLevel => ComparisonLevel
    case ComparisonLevel => TermLevel
    case TermLevel => FactorLevel
  }

  /** A rule that succeeds consumes at least one token, and the cursor
      stays on the token list; a rule that fails does so at or after
      where it started. */
  predicate Progress(toks: seq<Token>, pos: nat, o: Outcome)
  {
    match o
    case Parsed(_, next) => pos < next < |toks|
    case Failed(at, _) => pos <= at < |toks|
  }

  /** expression → equality */
  function Expression(toks: seq<Token>, pos: nat): (o: Outcome)
    requires WellFormed(toks) && pos < |toks|
    ensures Progress(toks, pos, o)
    decreases |toks| - pos, 11
  {
    BinaryLevel(EqualityLevel, toks, pos)
  }

  /** A binary level: one operand, then operators of the level each with a
      further operand, folded to the left. */
  function BinaryLevel(l: Level, toks: seq<Token>, pos: nat): (o: Outcome)
    requires WellFormed(toks) && pos < |toks|
    ensures Progress(toks, pos, o)
    decreases |toks| - pos, 2 * Height(l) + 2
  {
    var first := Operand(l, toks, pos);
    if first.Failed? then first else Fold(l, toks, first.expr, first.next)
  }

  /** An operand of level l: the next tighter level, or unary below factor. */
  function Operand(l: Level, toks: seq<Token>, pos: nat): (o: Outcome)
    requires WellFormed(toks) && pos < |toks|
    ensures Progress(toks, pos, o)
    decreases |toks| - pos, 2 * Height(l) + 1
  {
    if l.FactorLevel? then Unary(toks, pos) else BinaryLevel(Tighter(l), toks, pos)
  }

  /** The loop of a binary level with left as the tree so far. */
  function Fold(l: Level, toks: seq<Token>, left: Expr, pos: nat): (o: Outcome)
    requires WellFormed(toks) && pos < |toks|
    ensures o.Parsed? ==> pos <= o.next < |toks|
    ensures o.Failed? ==> pos < o.at < |toks|
    decreases |toks| - pos, 0
  {
    if Matches(toks, pos, Operators(l)) then
      var right := Operand(l, toks, pos + 1);
      if right.Failed? then right
      else Fold(l, toks, Binary(left, toks[pos], right.expr), right.next)
    else
      Parsed(left, pos)
  }

  /** unary → ( "!" | "-" ) unary | primary */
  function Unary(toks: seq<Token>, pos: nat): (o: Outcome)
    requires WellFormed(toks) && pos < |toks|
    ensures Progress(toks, pos, o)
    decreases |toks| - pos, 2
  {
    if Matches(toks, pos, [Bang, Minus]) then
      var right := Unary(toks, pos + 1);
      if right.Failed? then right
      else Parsed(Ast.Unary(toks[pos], right.expr), right.next)
    else
      Primary(toks, pos)
  }

  /** primary → false | true | nil | NUMBER | STRING | "(" expression ")" */
  function Primary(toks: seq<Token>, pos: nat): (o: Outcome)
    requires WellFormed(toks) && pos < |toks|
    ensures Progress(toks, pos, o)
    decreases |toks| - pos, 1
  {
    if Matches(toks, pos, [False]) then Parsed(Literal(BoolValue(false)), pos + 1)
    else if Matches(toks, pos, [True]) then Parsed(Literal(BoolValue(true)), pos + 1)
    else if Matches(toks, pos, [Nil]) then Parsed(Literal(NilValue), pos + 1)
    else if Matches(toks, pos, [Number, String]) then Parsed(Literal(toks[pos].literal), pos + 1)
    else if Matches(toks, pos, [LeftParen]) then Group(toks, pos + 1)
    else Failed(pos, "Expect expression.")
  }

  /** The rest of a parenthesised expression once "(" is matched: an
      expression, then ")" or a report at the token found instead. */
  function Group(toks: seq<Token>, pos: nat): (o: Outcome)
    requires WellFormed(toks) && pos < |toks|
    ensures Progress(toks, pos, o)
    decreases |toks| - pos, 12
  {
    var inner := Expression(toks, pos);
    if inner.Failed? then inner
    else if Check(toks, inner.next, RightParen) then Parsed(Grouping(inner.expr), inner.next + 1)
    else Failed(inner.next, "Expect ')' after expression.")
  }

  /** What parse hands back: the tree, or nothing after a syntax error, and
      the reports made to the error sink. */
  datatype ParseResult = ParseResult(tree: Option<Expr>, errors: seq<Diagnostic>)

  /** parse: one expression from the first token; a syntax error is reported
      at its token and the result is null. */
  function Parse(toks: seq<Token>): (r: ParseResult)
    requires WellFormed(toks)
    ensures r.tree.Some? <==> r.errors == []
    ensures |r.errors| <= 1
  {
    match Expression(toks, 0)
    case Parsed(e, _) => ParseResult(Some(e), [])
    case Failed(at, message) => ParseResult(None, [TokenError(toks[at], message)])
  }

  /** The kinds that begin a statement, before which synchronize stops. */
  predicate StartsStatement(kind: TokenType)
  {
    kind in {Class, Fun, Var, For, If, While, Print, Return}
  }

  /** The loop of synchronize from pos: it stops at EOF, just after a
      semicolon, or just before a statement keyword. */
  function SyncLoop(toks: seq<Token>, pos: nat): (r: nat)
    requires WellFormed(toks) && pos < |toks|
    requires pos > 0 || AtEnd(toks, pos)
    ensures pos <= r < |toks|
    decreases |toks| - pos
  {
    if AtEnd(toks, pos) then pos
    else if toks[pos - 1].kind == Semicolon then pos
    else if StartsStatement(toks[pos].kind) then pos
    else SyncLoop(toks, pos + 1)
  }

  /** synchronize: one advance, then the loop. */
  function Synchronize(toks: seq<Token>, pos: nat): (r: nat)
    requires WellFormed(toks) && pos < |toks|
    ensures pos <= r < |toks|
    ensures AtEnd(toks, pos) ==> r == pos
  {
    SyncLoop(toks, Advanced(toks, pos))
  }
}
