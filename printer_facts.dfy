/** The printed form is fully parenthesised: one pair of parentheses per
    operator or grouping node, properly nested, and every node that is not a
    literal prints as a single parenthesised group. */
module PrinterFacts {
  import opened Tokens
  import opened Ast
  import opened Printer

  function Opens(s: string): nat { multiset(s)['('] }

  function Closes(s: string): nat { multiset(s)[')'] }

  /** Parentheses opened and not yet closed at the end of s. */
  function Depth(s: string): int { Opens(s) - Closes(s) }

  /** No prefix of s closes more parentheses than it opens. */
  predicate Nested(s: string)
  {
    forall k :: 0 <= k <= |s| ==> Depth(s[..k]) >= 0
  }

  /** s is one group: its first parenthesis is closed by its last character
      and by nothing before it. */
  predicate OneGroup(s: string)
  {
    |s| >= 2 && Depth(s) == 0 && forall k :: 0 < k < |s| ==> Depth(s[..k]) > 0
  }

  predicate NoParens(t: string)
  {
    forall i :: 0 <= i < |t| ==> t[i] != '(' && t[i] != ')'
  }

  /** Every operator lexeme and literal text in e is free of parentheses. */
  predicate Plain(e: Expr)
  {
    match e
    case Binary(left, operator, right) => NoParens(operator.lexeme) && Plain(left) && Plain(right)
    case Grouping(expression) => Plain(expression)
    case Literal(value) => NoParens(LiteralText(value))
    case Unary(operator, right) => NoParens(operator.lexeme) && Plain(right)
  }

  /** Number of nodes that are not literals. */
  function Groups(e: Expr): nat
  {
    match e
    case Binary(left, _, right) => 1 + Groups(left) + Groups(right)
    case Grouping(expression) => 1 + Groups(expression)
    case Literal(_) => 0
    case Unary(_, right) => 1 + Groups(right)
  }

  lemma CountsConcat(a: string, b: string)
    ensures Opens(a + b) == Opens(a) + Opens(b)
    ensures Closes(a + b) == Closes(a) + Closes(b)
  {
    assert multiset(a + b) == multiset(a) + multiset(b);
  }

  lemma NestedConcat(a: string, b: string)
    requires Nested(a) && Nested(b) && Depth(a) == 0
    ensures Nested(a + b) && Depth(a + b) == Depth(b)
  {
    CountsConcat(a, b);
    forall k | 0 <= k <= |a + b|
      ensures Depth((a + b)[..k]) >= 0
    {
      if k <= |a| {
        assert (a + b)[..k] == a[..k];
      } else {
        assert (a + b)[..k] == a + b[..k - |a|];
        CountsConcat(a, b[..k - |a|]);
      }
    }
  }

  lemma PlainText(t: string)
    requires NoParens(t)
    ensures Nested(t) && Depth(t) == 0 && Opens(t) == 0
  {
    forall k | 0 <= k <= |t|
      ensures Opens(t[..k]) == 0 && Closes(t[..k]) == 0
    {
      assert '(' !in t[..k] && ')' !in t[..k];
    }
    assert t[..|t|] == t;
  }

  /** Wrapping nested text with no open parenthesis in a pair of
      parentheses gives one group. */
  lemma Wrapped(s: string, x: string)
    requires s == "(" + x + ")"
    requires Nested(x) && Depth(x) == 0
    ensures OneGroup(s) && Nested(s) && Depth(s) == 0 && Opens(s) == Opens(x) + 1
  {
    CountsConcat("(", x);
    CountsConcat("(" + x, ")");
    forall k | 0 < k < |s|
      ensures Depth(s[..k]) > 0
    {
      assert s[..k] == "(" + x[..k - 1];
      CountsConcat("(", x[..k - 1]);
    }
    assert s[..|s|] == s;
    assert s[..0] == "";
  }

  /** What the printed form of e promises: balanced, with one pair of
      parentheses per node that is not a literal, and a single group unless
      e is a literal. */
  predicate Balanced(e: Expr)
  {
    var s := Printed(e);
    && Nested(s) && Depth(s) == 0 && Opens(s) == Groups(e)
    && (!e.Literal? ==> OneGroup(s))
  }

  /** A printed tree without parentheses in its lexemes is balanced. */
  lemma {:induction false} PrintedNested(e: Expr)
    requires Plain(e)
    ensures Balanced(e)
    decreases e
  {
    match e
    case Literal(value) =>
      PlainText(LiteralText(value));
    case Grouping(expression) =>
      PrintedNested(expression);
      GroupingBalanced(expression);
    case Unary(operator, right) =>
      PrintedNested(right);
      UnaryBalanced(operator, right);
    case Binary(left, operator, right) =>
      PrintedNested(left);
      PrintedNested(right);
      BinaryBalanced(left, operator, right);
  }

  lemma GroupingBalanced(expression: Expr)
    requires Balanced(expression)
    ensures Balanced(Grouping(expression))
  {
    GroupName();
    Node("group", [Printed(expression)]);
    OpensOne(Printed(expression));
  }

  lemma GroupName()
    ensures NoParens("group")
  {
  }

  lemma UnaryBalanced(operator: Token, right: Expr)
    requires NoParens(operator.lexeme) && Balanced(right)
    ensures Balanced(Unary(operator, right))
  {
    Node(operator.lexeme, [Printed(right)]);
    OpensOne(Printed(right));
  }

  lemma BinaryBalanced(left: Expr, operator: Token, right: Expr)
    requires NoParens(operator.lexeme) && Balanced(left) && Balanced(right)
    ensures Balanced(Binary(left, operator, right))
  {
    var parts := [Printed(left), Printed(right)];
    Node(operator.lexeme, parts);
    OpensTwo(parts[0], parts[1]);
  }

  function OpensAll(parts: seq<string>): nat
  {
    if parts == [] then 0 else Opens(parts[0]) + OpensAll(parts[1..])
  }

  /** A node whose name is plain and whose parts are balanced prints as one
      group holding the parts' parentheses and one more pair. */
  lemma Node(name: string, parts: seq<string>)
    requires NoParens(name)
    requires forall i :: 0 <= i < |parts| ==> Nested(parts[i]) && Depth(parts[i]) == 0
    ensures var s := Parenthesized(name, parts);
      OneGroup(s) && Nested(s) && Depth(s) == 0 && Opens(s) == 1 + OpensAll(parts)
  {
    var x := name + Spaced(parts);
    var s := Parenthesized(name, parts);
    ParenthesizedForm(name, parts);
    assert Nested(x) && Depth(x) == 0 && Opens(x) == OpensAll(parts) by {
      PlainText(name);
      SpacedNested(parts);
      NestedConcat(name, Spaced(parts));
      CountsConcat(name, Spaced(parts));
    }
    Wrapped(s, x);
  }

  lemma OpensOne(a: string)
    ensures OpensAll([a]) == Opens(a)
  {
    assert OpensAll([a]) == Opens(a) + OpensAll([]);
  }

  lemma OpensTwo(a: string, b: string)
    ensures OpensAll([a, b]) == Opens(a) + Opens(b)
  {
    assert [a, b][1..] == [b];
    assert OpensAll([b]) == Opens(b) + OpensAll([]);
  }

  lemma ParenthesizedForm(name: string, parts: seq<string>)
    ensures Parenthesized(name, parts) == "(" + (name + Spaced(parts)) + ")"
  {
  }

  lemma {:induction false} SpacedNested(parts: seq<string>)
    requires forall i :: 0 <= i < |parts| ==> Nested(parts[i]) && Depth(parts[i]) == 0
    ensures Nested(Spaced(parts)) && Depth(Spaced(parts)) == 0
    ensures Opens(Spaced(parts)) == OpensAll(parts)
    decreases |parts|
  {
    if parts != [] {
      SpacedNested(parts[1..]);
      PlainText(" ");
      NestedConcat(" ", parts[0]);
      CountsConcat(" ", parts[0]);
      NestedConcat(" " + parts[0], Spaced(parts[1..]));
      CountsConcat(" " + parts[0], Spaced(parts[1..]));
    }
  }
}
