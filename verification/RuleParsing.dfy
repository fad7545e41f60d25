/**
 The bound tokens of a compiled condition parse to one tree, whatever the operators
 around them: every compiled node is an operand that no neighbour can break open.
 */
module RuleParsing {
  import opened Wrappers
  import opened Sql
  import opened RuleCompiler
  import opened RuleReadback

  /** The tree a compiled node stands for. */
  function Tree(node: Json): Expr
    decreases node, 1
  {
    match FormOf(node)
    case Leaf(v) => Const(v)
    case Metric(column) => Column(column)
    case Negate(inner) => Negation(Tree(inner))
    case Apply(op, args) => TreeOf(op, args)
    case Malformed(_) => Const(Bad)
  }

  function TreeOf(op: Operator, args: seq<Json>): Expr
    requires Fits(op, |args|)
    decreases args, 1
  {
    match op
    case Chain(s) => TreeChain(s, args)
    case Comparison(s) => Call("coalesce", [Binary(s, Tree(args[0]), Tree(args[1])), Const(Bool(false))])
    case Quotient => Binary("/", Tree(args[0]), Call("nullif", [Tree(args[1]), Const(Num(0.0))]))
  }

  /** Operands combined from the left, as SQL reads `a op b op c`. */
  function TreeChain(s: string, args: seq<Json>): Expr
    decreases args, 0
  {
    if args == [] then Const(Bad)
    else if |args| == 1 then Tree(args[0])
    else Binary(s, TreeChain(s, args[..|args| - 1]), Tree(args[|args| - 1]))
  }

  // ------------------------------------------------------------- parsing

  /** `rest` gives an operand before it no reason to read on at this level. */
  predicate Stops(rest: seq<Token>, level: nat) {
    rest == [] || (!rest[0].LParen? && (Level(rest[0]) == 0 || Level(rest[0]) < level))
  }

  predicate Closed(rest: seq<Token>) {
    rest == [] || rest[0].RParen? || rest[0].Comma?
  }

  /** `ts` is read as the primary expression `e` wherever it stands. */
  ghost predicate Operand(ts: seq<Token>, e: Expr) {
    forall rest: seq<Token> | rest == [] || !rest[0].LParen? :: ParsePrimary(ts + rest) == Some((e, rest))
  }

  /** `ts` is read as the expression `e` inside parentheses or an argument list. */
  ghost predicate Enclosed(ts: seq<Token>, e: Expr) {
    forall rest: seq<Token> | Closed(rest) :: ParseExpr(ts + rest, 1) == Some((e, rest))
  }

  lemma ExprIsTail(ts: seq<Token>, e: Expr, rest: seq<Token>, level: nat)
    requires Operand(ts, e) && (rest == [] || !rest[0].LParen?)
    ensures ParseExpr(ts + rest, level) == ParseTail(e, rest, level)
  {
  }

  lemma TailStops(left: Expr, rest: seq<Token>, level: nat)
    requires Stops(rest, level)
    ensures ParseTail(left, rest, level) == Some((left, rest))
  {
  }

  /** One more infix operator and its right operand. */
  lemma TailStep(left: Expr, t: Token, more: seq<Token>, right: Expr, rest: seq<Token>, level: nat)
    requires Level(t) > 0 && Level(t) >= level && ParseExpr(more, Level(t) + 1) == Some((right, rest))
    ensures ParseTail(left, [t] + more, level) == ParseTail(Binary(Infix(t), left, right), rest, level)
  {
  }

  lemma SymbolLevel(s: string)
    requires Infixed(s)
    ensures Level(SymbolToken(s)) >= 1 && Infix(SymbolToken(s)) == s && !SymbolToken(s).LParen?
  {
  }

  lemma OperandParses(ts: seq<Token>, e: Expr, rest: seq<Token>, level: nat)
    requires Operand(ts, e) && Stops(rest, level)
    ensures ParseExpr(ts + rest, level) == Some((e, rest))
  {
  }

  lemma OperandEnclosed(ts: seq<Token>, e: Expr)
    requires Operand(ts, e)
    ensures Enclosed(ts, e)
  {
  }

  lemma ParenthesesParse(ts: seq<Token>, e: Expr)
    requires Enclosed(ts, e)
    ensures Operand([LParen] + ts + [RParen], e)
  {
    forall rest: seq<Token> | rest == [] || !rest[0].LParen?
      ensures ParsePrimary([LParen] + ts + [RParen] + rest) == Some((e, rest))
    {
      var all := [LParen] + ts + [RParen] + rest;
      assert all[1..] == ts + ([RParen] + rest);
      assert ([RParen] + rest)[1..] == rest;
      assert ParseExpr(ts + ([RParen] + rest), 1) == Some((e, [RParen] + rest));
    }
  }

  lemma NegationParses(ts: seq<Token>, e: Expr)
    requires Operand(ts, e)
    ensures Enclosed([Word("not")] + ts, Negation(e))
  {
    hide Operand, ParseExpr;
    forall rest: seq<Token> | Closed(rest)
      ensures ParseExpr([Word("not")] + ts + rest, 1) == Some((Negation(e), rest))
    {
      assert [Word("not")] + ts + rest == [Word("not")] + (ts + rest);
      OperandParses(ts, e, rest, NOT_LEVEL);
      NegationStep(ts + rest, e, rest);
    }
  }

  lemma NegationStep(more: seq<Token>, e: Expr, rest: seq<Token>)
    requires Closed(rest) && ParseExpr(more, NOT_LEVEL) == Some((e, rest))
    ensures ParseExpr([Word("not")] + more, 1) == Some((Negation(e), rest))
  {
    hide ParseTail, ParsePrimary;
    assert ([Word("not")] + more)[1..] == more;
    TailStops(Negation(e), rest, 1);
  }

  lemma BinaryParses(s: string, a: seq<Token>, ea: Expr, b: seq<Token>, eb: Expr)
    requires Infixed(s) && Operand(a, ea) && Operand(b, eb)
    ensures Enclosed(a + [SymbolToken(s)] + b, Binary(s, ea, eb))
  {
    hide Operand, ParseExpr, ParseTail;
    forall rest: seq<Token> | Closed(rest)
      ensures ParseExpr(a + [SymbolToken(s)] + b + rest, 1) == Some((Binary(s, ea, eb), rest))
    {
      BinaryStep(s, ea, b, eb, rest, 1);
      assert a + [SymbolToken(s)] + b + rest == a + ([SymbolToken(s)] + (b + rest));
      ExprIsTail(a, ea, [SymbolToken(s)] + (b + rest), 1);
      TailStops(Binary(s, ea, eb), rest, 1);
    }
  }

  lemma BinaryStep(s: string, left: Expr, b: seq<Token>, eb: Expr, rest: seq<Token>, level: nat)
    requires Infixed(s) && Operand(b, eb) && Stops(rest, Level(SymbolToken(s)) + 1) && level <= Level(SymbolToken(s))
    ensures !([SymbolToken(s)] + (b + rest))[0].LParen?
    ensures ParseTail(left, [SymbolToken(s)] + (b + rest), level) == ParseTail(Binary(s, left, eb), rest, level)
  {
    hide Operand, ParseExpr, ParseTail;
    SymbolLevel(s);
    OperandParses(b, eb, rest, Level(SymbolToken(s)) + 1);
    TailStep(left, SymbolToken(s), b + rest, eb, rest, level);
  }

  lemma CallParses(fn: string, a: seq<Token>, ea: Expr, b: seq<Token>, eb: Expr)
    requires !Reserved(fn) && Enclosed(a, ea) && Enclosed(b, eb)
    ensures Operand([Word(fn), LParen] + a + [Comma] + b + [RParen], Call(fn, [ea, eb]))
  {
    hide Enclosed, ParsePrimary, ParseArgs, Reserved;
    forall rest: seq<Token> | rest == [] || !rest[0].LParen?
      ensures ParsePrimary([Word(fn), LParen] + a + [Comma] + b + [RParen] + rest) == Some((Call(fn, [ea, eb]), rest))
    {
      ArgumentsParse(a, ea, b, eb, rest);
      var args := a + ([Comma] + (b + ([RParen] + rest)));
      assert [Word(fn), LParen] + a + [Comma] + b + [RParen] + rest == [Word(fn), LParen] + args;
      CallStep(fn, args, [ea, eb], rest);
    }
  }

  lemma CallStep(fn: string, more: seq<Token>, args: seq<Expr>, rest: seq<Token>)
    requires !Reserved(fn) && ParseArgs(more) == Some((args, rest))
    ensures ParsePrimary([Word(fn), LParen] + more) == Some((Call(fn, args), rest))
  {
  }

  lemma ArgumentsParse(a: seq<Token>, ea: Expr, b: seq<Token>, eb: Expr, rest: seq<Token>)
    requires Enclosed(a, ea) && Enclosed(b, eb)
    ensures ParseArgs(a + ([Comma] + (b + ([RParen] + rest)))) == Some(([ea, eb], rest))
  {
    hide Enclosed;
    var close := [RParen] + rest;
    var second := [Comma] + (b + close);
    assert second[1..] == b + close && close[1..] == rest;
    EnclosedAt(b, eb, close);
    EnclosedAt(a, ea, second);
    hide ParseExpr;
    assert ParseArgs(b + close) == Some(([eb], rest));
    assert ParseArgs(a + second) == Some(([ea] + [eb], rest));
    assert [ea] + [eb] == [ea, eb];
  }

  lemma EnclosedAt(ts: seq<Token>, e: Expr, rest: seq<Token>)
    requires Enclosed(ts, e) && Closed(rest)
    ensures ParseExpr(ts + rest, 1) == Some((e, rest))
  {
  }

  /** A chain of operands separated by one operator is read from the left. */
  lemma {:induction false} ChainParses(s: string, args: seq<Json>, rest: seq<Token>)
    requires args != [] && WellFormedAll(args) && (Logical(s) || Additive(s)) && Stops(rest, Level(SymbolToken(s)) + 1)
    ensures ParseExpr(Chained(s, args, true) + rest, 1) == ParseTail(TreeChain(s, args), rest, 1)
    decreases args, 0
  {
    hide Operand, ParseExpr, ParseTail;
    var last := args[|args| - 1];
    var ts, e := Tokens(last, true), Tree(last);
    TokensParse(last);
    if |args| == 1 {
      ExprIsTail(ts, e, rest, 1);
    } else {
      var before := args[..|args| - 1];
      var tail := [SymbolToken(s)] + (ts + rest);
      assert Chained(s, args, true) + rest == Chained(s, before, true) + tail;
      SymbolLevel(s);
      BinaryStep(s, TreeChain(s, before), ts, e, rest, 1);
      ChainParses(s, before, tail);
    }
  }

  lemma LiteralsParse()
    ensures Operand([Word("false")], Const(Bool(false))) && Operand([Word("0")], Const(Num(0.0)))
  {
  }

  /** Every compiled node is an operand: its text cannot be regrouped. */
  lemma {:induction false} TokensParse(node: Json)
    requires WellFormed(node)
    ensures Operand(Tokens(node, true), Tree(node))
    decreases node, 1
  {
    hide Operand;
    match FormOf(node)
    case Leaf(v) => BoundParses(v);
    case Metric(column) =>
      MetricIsColumn(node);
      ColumnIsPlain(column);
      ColumnParses(column);
    case Negate(inner) =>
      var ts := Tokens(inner, true);
      TokensParse(inner);
      NegationParses(ts, Tree(inner));
      ParenthesesParse([Word("not")] + ts, Negation(Tree(inner)));
      assert [LParen] + ([Word("not")] + ts) + [RParen] == Tokens(node, true);
    case Apply(op, args) => OperandsParse(op, args);
  }

  lemma BoundParses(v: Value)
    ensures Operand([Bound(v)], Const(v))
  {
  }

  lemma ColumnIsPlain(column: string)
    requires IsColumn(column)
    ensures !Reserved(column) && column != "false" && column != "0"
  {
  }

  lemma ColumnParses(column: string)
    requires !Reserved(column) && column != "false" && column != "0"
    ensures Operand([Word(column)], Column(column))
  {
  }

  lemma {:induction false} OperandsParse(op: Operator, args: seq<Json>)
    requires Fits(op, |args|) && WellFormedAll(args)
    ensures Operand(Framed(op, args, true), TreeOf(op, args))
    decreases args, 1
  {
    hide Operand, Enclosed;
    var a, b := Tokens(args[0], true), Tokens(args[1], true);
    var ea, eb := Tree(args[0]), Tree(args[1]);
    WellFormedAt(args, 0);
    WellFormedAt(args, 1);
    TokensParse(args[0]);
    TokensParse(args[1]);
    match op {
      case Chain(s) =>
        ChainEnclosed(s, args);
        ParenthesesParse(Chained(s, args, true), TreeChain(s, args));
      case Comparison(s) =>
        ComparisonParses(s, a, ea, b, eb);
      case Quotient =>
        QuotientParses(a, ea, b, eb);
    }
  }

  lemma {:induction false} ChainEnclosed(s: string, args: seq<Json>)
    requires args != [] && WellFormedAll(args) && (Logical(s) || Additive(s))
    ensures Enclosed(Chained(s, args, true), TreeChain(s, args))
    decreases args, 1, 0
  {
    hide ParseExpr, ParseTail;
    forall rest: seq<Token> | Closed(rest)
      ensures ParseExpr(Chained(s, args, true) + rest, 1) == Some((TreeChain(s, args), rest))
    {
      ChainParses(s, args, rest);
      TailStops(TreeChain(s, args), rest, 1);
    }
  }

  lemma ComparisonParses(s: string, a: seq<Token>, ea: Expr, b: seq<Token>, eb: Expr)
    requires Infixed(s) && Operand(a, ea) && Operand(b, eb)
    ensures Operand([Word("coalesce"), LParen, LParen] + a + [SymbolToken(s)] + b + [RParen, Comma, Word("false"), RParen],
                    Call("coalesce", [Binary(s, ea, eb), Const(Bool(false))]))
  {
    hide Operand, Enclosed;
    var inner := a + [SymbolToken(s)] + b;
    BinaryParses(s, a, ea, b, eb);
    ParenthesesParse(inner, Binary(s, ea, eb));
    OperandEnclosed([LParen] + inner + [RParen], Binary(s, ea, eb));
    LiteralsParse();
    OperandEnclosed([Word("false")], Const(Bool(false)));
    CallParses("coalesce", [LParen] + inner + [RParen], Binary(s, ea, eb), [Word("false")], Const(Bool(false)));
    assert [Word("coalesce"), LParen] + ([LParen] + inner + [RParen]) + [Comma] + [Word("false")] + [RParen]
        == [Word("coalesce"), LParen, LParen] + a + [SymbolToken(s)] + b + [RParen, Comma, Word("false"), RParen];
  }

  lemma QuotientParses(a: seq<Token>, ea: Expr, b: seq<Token>, eb: Expr)
    requires Operand(a, ea) && Operand(b, eb)
    ensures Operand([LParen] + a + [SymbolToken("/"), Word("nullif"), LParen] + b + [Comma, Word("0"), RParen, RParen],
                    Binary("/", ea, Call("nullif", [eb, Const(Num(0.0))])))
  {
    hide Operand, Enclosed;
    LiteralsParse();
    OperandEnclosed(b, eb);
    OperandEnclosed([Word("0")], Const(Num(0.0)));
    CallParses("nullif", b, eb, [Word("0")], Const(Num(0.0)));
    var call := [Word("nullif"), LParen] + b + [Comma] + [Word("0")] + [RParen];
    var divisor := Call("nullif", [eb, Const(Num(0.0))]);
    BinaryParses("/", a, ea, call, divisor);
    ParenthesesParse(a + [SymbolToken("/")] + call, Binary("/", ea, divisor));
    assert [LParen] + (a + [SymbolToken("/")] + call) + [RParen]
        == [LParen] + a + [SymbolToken("/"), Word("nullif"), LParen] + b + [Comma, Word("0"), RParen, RParen];
  }

  // ------------------------------------------------ the reader's precedence

  function Infixes(a: Value, s: Token, b: Value, t: Token, c: Value): seq<Token> {
    [Bound(a), s, Bound(b), t, Bound(c)]
  }

  /** An operator that binds tighter takes its operands first; of two that bind alike the left one does. */
  lemma TighterFirst(a: Value, s: Token, b: Value, t: Token, c: Value)
    requires Level(s) > 0 && Level(t) > 0
    ensures ParseExpr(Infixes(a, s, b, t, c), 1)
         == Some((if Level(s) < Level(t) then Binary(Infix(s), Const(a), Binary(Infix(t), Const(b), Const(c)))
                  else Binary(Infix(t), Binary(Infix(s), Const(a), Const(b)), Const(c)), []))
  {
    hide ParseExpr, ParseTail, Operand, Level, Infix;
    var last, middle := [t] + [Bound(c)], [s] + ([Bound(b)] + ([t] + [Bound(c)]));
    assert Infixes(a, s, b, t, c) == [Bound(a)] + middle;
    BoundParses(a);
    BoundParses(b);
    BoundParses(c);
    NotParentheses(s);
    NotParentheses(t);
    ExprIsTail([Bound(a)], Const(a), middle, 1);
    EndStops();
    OperandParses([Bound(c)], Const(c), [], Level(t) + 1);
    assert [Bound(c)] + [] == [Bound(c)];
    if Level(s) < Level(t) {
      ExprIsTail([Bound(b)], Const(b), last, Level(s) + 1);
      TailStep(Const(b), t, [Bound(c)], Const(c), [], Level(s) + 1);
      TailStops(Binary(Infix(t), Const(b), Const(c)), [], Level(s) + 1);
      TailStep(Const(a), s, [Bound(b)] + last, Binary(Infix(t), Const(b), Const(c)), [], 1);
      TailStops(Binary(Infix(s), Const(a), Binary(Infix(t), Const(b), Const(c))), [], 1);
    } else {
      LooserStops(s, last);
      OperandParses([Bound(b)], Const(b), last, Level(s) + 1);
      TailStep(Const(a), s, [Bound(b)] + last, Const(b), last, 1);
      TailStep(Binary(Infix(s), Const(a), Const(b)), t, [Bound(c)], Const(c), [], 1);
      TailStops(Binary(Infix(t), Binary(Infix(s), Const(a), Const(b)), Const(c)), [], 1);
    }
  }

  lemma NotParentheses(t: Token)
    requires Level(t) > 0
    ensures !t.LParen?
  {
  }

  lemma EndStops()
    ensures forall level: nat :: Stops([], level)
  {
  }

  lemma LooserStops(s: Token, rest: seq<Token>)
    requires rest != [] && Level(rest[0]) <= Level(s) && Level(rest[0]) > 0
    ensures Stops(rest, Level(s) + 1)
  {
  }

  /** SQL's order: `or`, then `and`, then comparisons, then sums, then products. */
  lemma LevelsAre(w: string, op: string)
    ensures 0 < Level(Word("or")) < Level(Word("and")) < NOT_LEVEL
    ensures op in ["=", "<>", "<", "<=", ">", ">="] ==> NOT_LEVEL <= Level(Op(op)) < Level(Op("+")) == Level(Op("-")) < Level(Op("*")) == Level(Op("/"))
    ensures w !in ["or", "and"] ==> Level(Word(w)) == 0
  {
  }
}
