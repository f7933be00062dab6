/** The AST printer: every expression as fully parenthesised prefix text.
    The functions say what the text is; the methods build it the way the
    printer does, by visiting nodes and appending to a string. */
module Printer {
  import opened Tokens
  import opened Ast
  import opened Numerals

  /** The string form of a literal's value: nil for the absent value. */
  function LiteralText(v: Value): string
  {
    match v
    case NilValue => "nil"
    case BoolValue(b) => if b then "true" else "false"
    case NumberValue(lexeme) => NumberText(lexeme)
    case StringValue(text) => text
  }

  /** Each part preceded by one space, in order. */
  function Spaced(parts: seq<string>): string
  {
    if parts == [] then "" else " " + parts[0] + Spaced(parts[1..])
  }

  /** The text of one node: its name and then its parts, in parentheses. */
  function Parenthesized(name: string, parts: seq<string>): (s: string)
    ensures |s| >= 2 + |name| && s[0] == '(' && s[|s| - 1] == ')'
    ensures s[1..1 + |name|] == name
  {
    "(" + name + Spaced(parts) + ")"
  }

  /** The printed form of an expression. */
  function Printed(e: Expr): (s: string)
    ensures !e.Literal? ==> |s| >= 2 && s[0] == '(' && s[|s| - 1] == ')'
  {
    match e
    case Binary(left, operator, right) => Parenthesized(operator.lexeme, [Printed(left), Printed(right)])
    case Grouping(expression) => Parenthesized("group", [Printed(expression)])
    case Literal(value) => LiteralText(value)
    case Unary(operator, right) => Parenthesized(operator.lexeme, [Printed(right)])
  }

  function PrintedAll(es: seq<Expr>): (parts: seq<string>)
    ensures |parts| == |es|
    ensures forall i :: 0 <= i < |es| ==> parts[i] == Printed(es[i])
  {
    seq(|es|, i requires 0 <= i < |es| => Printed(es[i]))
  }

  /** The printer as the visitor that accept dispatches to. */
  function PrinterVisitor(): Visitor<string>
  {
    Visitor(
      (left, operator: Token, right) => Parenthesized(operator.lexeme, [Printed(left), Printed(right)]),
      expression => Parenthesized("group", [Printed(expression)]),
      value => LiteralText(value),
      (operator: Token, right) => Parenthesized(operator.lexeme, [Printed(right)]))
  }

  /** print is accept with the printer: each node is printed by the visit
      function of its own kind. */
  lemma PrintIsAccept(e: Expr)
    ensures Printed(e) == Accept(e, PrinterVisitor())
  {
  }

  lemma {:induction false} SpacedSnoc(parts: seq<string>, p: string)
    ensures Spaced(parts + [p]) == Spaced(parts) + " " + p
    decreases |parts|
  {
    if parts != [] {
      assert (parts + [p])[1..] == parts[1..] + [p];
      SpacedSnoc(parts[1..], p);
    }
  }

  method Print(e: Expr) returns (s: string)
    ensures s == Printed(e)
    decreases Size(e), 2
  {
    match e
    case Binary(left, operator, right) =>
      s := VisitBinaryExpr(left, operator, right);
    case Grouping(expression) =>
      s := VisitGroupingExpr(expression);
    case Literal(value) =>
      s := VisitLiteralExpr(value);
    case Unary(operator, right) =>
      s := VisitUnaryExpr(operator, right);
  }

  method VisitBinaryExpr(left: Expr, operator: Token, right: Expr) returns (s: string)
    ensures s == Printed(Binary(left, operator, right))
    decreases Size(Binary(left, operator, right)), 1
  {
    assert SizeAll([left, right]) == Size(Binary(left, operator, right)) by {
      assert [left, right][1..] == [right];
      assert SizeAll([right]) == Size(right) + 1;
    }
    s := Parenthesize(operator.lexeme, [left, right]);
    assert PrintedAll([left, right]) == [Printed(left), Printed(right)];
  }

  method VisitGroupingExpr(expression: Expr) returns (s: string)
    ensures s == Printed(Grouping(expression))
    decreases Size(Grouping(expression)), 1
  {
    assert SizeAll([expression]) == Size(Grouping(expression));
    s := Parenthesize("group", [expression]);
    assert PrintedAll([expression]) == [Printed(expression)];
  }

  method VisitLiteralExpr(value: Value) returns (s: string)
    ensures s == Printed(Literal(value))
  {
    if value == NilValue {
      return "nil";
    }
    s := LiteralText(value);
  }

  method VisitUnaryExpr(operator: Token, right: Expr) returns (s: string)
    ensures s == Printed(Unary(operator, right))
    decreases Size(Unary(operator, right)), 1
  {
    assert SizeAll([right]) == Size(Unary(operator, right));
    s := Parenthesize(operator.lexeme, [right]);
    assert PrintedAll([right]) == [Printed(right)];
  }

  /** Opens a parenthesis with the name, appends a space and the printed
      form of each expression in turn, and closes the parenthesis. */
  method Parenthesize(name: string, exprs: seq<Expr>) returns (content: string)
    ensures content == Parenthesized(name, PrintedAll(exprs))
    decreases SizeAll(exprs), 0
  {
    content := "(" + name;
    for i := 0 to |exprs|
      invariant content == "(" + name + Spaced(PrintedAll(exprs[..i]))
    {
      content := content + " ";
      SizeAllBound(exprs, i);
      var part := Print(exprs[i]);
      SpacedSnoc(PrintedAll(exprs[..i]), part);
      assert PrintedAll(exprs[..i + 1]) == PrintedAll(exprs[..i]) + [part];
      content := content + part;
    }
    content := content + ")";
    assert exprs[..|exprs|] == exprs;
  }

  /** The example's number literals are already in shortest form. */
  lemma ExampleNumbers()
    ensures NumberText("123") == "123" && NumberText("45.67") == "45.67"
  {
    WholeNumeral("123");
    CanonicalText("123");
    FractionNumeral("45.67", "45", "67");
    CanonicalText("45.67");
  }

  /** A node with one part prints as its name and that part, in parentheses. */
  lemma ParenthesizedOne(name: string, a: string)
    ensures Parenthesized(name, [a]) == "(" + name + " " + a + ")"
  {
    assert Spaced([a]) == " " + a + Spaced([]);
  }

  /** A node with two parts prints as its name and both parts, in order. */
  lemma ParenthesizedTwo(name: string, a: string, b: string)
    ensures Parenthesized(name, [a, b]) == "(" + name + " " + a + " " + b + ")"
  {
    assert [a, b][1..] == [b];
    assert Spaced([b]) == " " + b + Spaced([]);
  }

  const Negated := Unary(Token(Minus, "-", NilValue, 1), Literal(NumberValue("123")))
  const Grouped := Grouping(Literal(NumberValue("45.67")))

  lemma ExampleLiterals()
    ensures Printed(Literal(NumberValue("123"))) == "123"
    ensures Printed(Literal(NumberValue("45.67"))) == "45.67"
  {
    ExampleNumbers();
  }

  lemma ExampleTexts()
    ensures "(" + "-" + " " + "123" + ")" == "(- 123)"
    ensures "(" + "group" + " " + "45.67" + ")" == "(group 45.67)"
  {
  }

  lemma ExampleText()
    ensures "(" + "*" + " " + "(- 123)" + " " + "(group 45.67)" + ")" == "(* (- 123) (group 45.67))"
  {
  }

  lemma ExampleLeft()
    ensures Printed(Negated) == "(- 123)"
  {
    ExampleLiterals();
    ParenthesizedOne("-", "123");
    ExampleTexts();
  }

  lemma ExampleRight()
    ensures Printed(Grouped) == "(group 45.67)"
  {
    ExampleLiterals();
    ParenthesizedOne("group", "45.67");
    ExampleTexts();
  }

  /** The printer's own example, -123 * (45.67), prints as
      `(* (- 123) (group 45.67))`. */
  lemma ExamplePrinted()
    ensures Printed(Binary(Negated, Token(Star, "*", NilValue, 1), Grouped)) == "(* (- 123) (group 45.67))"
  {
    ExampleLeft();
    ExampleRight();
    ParenthesizedTwo("*", "(- 123)", "(group 45.67)");
    ExampleText();
  }

  /** The printer's own example: building the tree and printing it. */
  method PrintExample() returns (s: string)
    ensures s == "(* (- 123) (group 45.67))"
  {
    var expression := Binary(
      Unary(Token(Minus, "-", NilValue, 1), Literal(NumberValue("123"))),
      Token(Star, "*", NilValue, 1),
      Grouping(Literal(NumberValue("45.67"))));
    s := Print(expression);
    ExamplePrinted();
  }
}
