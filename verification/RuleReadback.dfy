/**
 Reading the compiler's text back: lexing it gives one token list, binding its
 parameters fills the placeholders in order, and the precedence parser finds the
 tree the condition stands for. No step knows how the text was produced.
 */
module RuleReadback {
  import opened Wrappers
  import opened Sql
  import Strings = Texts
  import opened RuleCompiler

  // ---------------------------------------------------------- acceptance

  /** A condition is accepted exactly when every node has a legal shape, no node
      lies deeper than the depth limit and the nodes visited fit the budget. */
  lemma {:induction false} ErrorFree(node: Json, depth: nat, nodes: nat)
    ensures FirstError(node, depth, nodes) == None <==>
            WellFormed(node) && depth + Height(node) <= MAX_DEPTH && nodes + Size(node) <= MAX_NODES
    decreases node, 1
  {
    match FormOf(node)
    case Negate(inner) => ErrorFree(inner, depth + 1, nodes + 1);
    case Apply(_, args) => ErrorFreeOf(args, depth + 1, nodes + 1);
    case _ =>
  }

  lemma {:induction false} ErrorFreeOf(args: seq<Json>, depth: nat, nodes: nat)
    ensures FirstErrorOf(args, depth, nodes) == None <==>
            WellFormedAll(args) && (args == [] || (depth + HeightOf(args) <= MAX_DEPTH && nodes + SizeOf(args) <= MAX_NODES))
    decreases args, 0
  {
    if args != [] {
      var before := args[..|args| - 1];
      ErrorFreeOf(before, depth, nodes);
      ErrorFree(args[|args| - 1], depth, nodes + SizeOf(before));
    }
  }

  lemma WellFormedAt(args: seq<Json>, i: nat)
    requires WellFormedAll(args) && i < |args|
    ensures WellFormed(args[i])
  {
    if i < |args| - 1 {
      WellFormedAt(args[..|args| - 1], i);
    }
  }

  // -------------------------------------------------------------- tokens

  function SymbolToken(s: string): Token {
    if Logical(s) then Word(s) else Op(s)
  }

  /** The tokens of a compiled node, with placeholders or with bound values. */
  function Tokens(node: Json, bound: bool): seq<Token>
    decreases node, 1
  {
    match FormOf(node)
    case Leaf(v) => [if bound then Bound(v) else Placeholder]
    case Metric(column) => [Word(column)]
    case Negate(inner) => [LParen, Word("not")] + Tokens(inner, bound) + [RParen]
    case Apply(op, args) => Framed(op, args, bound)
    case Malformed(_) => []
  }

  function Framed(op: Operator, args: seq<Json>, bound: bool): seq<Token>
    requires Fits(op, |args|)
    decreases args, 1
  {
    match op
    case Chain(s) => [LParen] + Chained(s, args, bound) + [RParen]
    case Comparison(s) =>
      [Word("coalesce"), LParen, LParen] + Tokens(args[0], bound) + [SymbolToken(s)] + Tokens(args[1], bound)
      + [RParen, Comma, Word("false"), RParen]
    case Quotient =>
      [LParen] + Tokens(args[0], bound) + [SymbolToken("/"), Word("nullif"), LParen] + Tokens(args[1], bound)
      + [Comma, Word("0"), RParen, RParen]
  }

  function Chained(s: string, args: seq<Json>, bound: bool): seq<Token>
    decreases args, 0
  {
    if args == [] then []
    else if |args| == 1 then Tokens(args[0], bound)
    else Chained(s, args[..|args| - 1], bound) + [SymbolToken(s)] + Tokens(args[|args| - 1], bound)
  }

  // -------------------------------------------------------------- lexing

  function PrependAll(ts: seq<Token>, rest: Option<seq<Token>>): Option<seq<Token>> {
    match rest
    case None => None
    case Some(us) => Some(ts + us)
  }

  lemma PrependTwice(a: seq<Token>, b: seq<Token>, rest: Option<seq<Token>>)
    ensures PrependAll(a, PrependAll(b, rest)) == PrependAll(a + b, rest)
  {
    if rest.Some? {
      assert a + (b + rest.value) == (a + b) + rest.value;
    }
  }

  /** What may follow an operand: nothing, a space, a comma or a parenthesis. */
  predicate Boundary(r: string) {
    r == "" || r[0] in " ),"
  }

  lemma {:induction false} WordRunStops(w: string, r: string)
    requires (forall i | 0 <= i < |w| :: WordChar(w[i])) && (r == "" || !WordChar(r[0]))
    ensures WordRun(w + r) == |w|
  {
    if w == "" {
      assert w + r == r;
    } else {
      assert (w + r)[1..] == w[1..] + r;
      WordRunStops(w[1..], r);
    }
  }

  lemma {:induction false} OpRunStops(w: string, r: string)
    requires (forall i | 0 <= i < |w| :: OpChar(w[i])) && (r == "" || !OpChar(r[0]))
    ensures OpRun(w + r) == |w|
  {
    if w == "" {
      assert w + r == r;
    } else {
      assert (w + r)[1..] == w[1..] + r;
      OpRunStops(w[1..], r);
    }
  }

  lemma LexWord(w: string, r: string)
    requires IsWord(w) && (r == "" || !WordChar(r[0]))
    ensures Lex(w + r) == PrependAll([Word(w)], Lex(r))
  {
    WordRunStops(w, r);
    var s := w + r;
    assert s[0] == w[0] && s[..|w|] == w && s[|w|..] == r;
  }

  lemma LexOperator(s: string)
    requires s != "" && OpChar(s[0])
    ensures Lex(s) == PrependAll([Op(s[..OpRun(s)])], Lex(s[OpRun(s)..]))
  {
    hide OpRun, WordRun;
  }

  lemma LexOp(w: string, r: string)
    requires IsOp(w) && (r == "" || !OpChar(r[0]))
    ensures Lex(w + r) == PrependAll([Op(w)], Lex(r))
  {
    hide Lex, OpRun;
    OpRunStops(w, r);
    var s := w + r;
    LexOperator(s);
    assert s[0] == w[0] && s[..|w|] == w && s[|w|..] == r;
  }

  /** `s` lexes to `ts` before any text that may follow it: any text at all when
      `free`, any boundary otherwise. */
  ghost predicate Lexes(s: string, ts: seq<Token>, free: bool) {
    forall r: string | free || Boundary(r) :: Lex(s + r) == PrependAll(ts, Lex(r))
  }

  lemma BoundaryHolds(s: string, r: string)
    ensures s != "" && Boundary(s) ==> Boundary(s + r)
  {
  }

  lemma Then(s: string, ts: seq<Token>, free: bool, s': string, ts': seq<Token>, free': bool)
    requires Lexes(s, ts, free) && Lexes(s', ts', free') && (free || (s' != "" && Boundary(s')))
    ensures Lexes(s + s', ts + ts', free')
  {
    hide Lex, Boundary;
    forall r: string | free' || Boundary(r)
      ensures Lex(s + s' + r) == PrependAll(ts + ts', Lex(r))
    {
      assert s + s' + r == s + (s' + r);
      BoundaryHolds(s', r);
      assert Lex(s + (s' + r)) == PrependAll(ts, Lex(s' + r));
      PrependTwice(ts, ts', Lex(r));
    }
  }

  lemma Glyph(s: string, ts: seq<Token>)
    requires (s == "(" && ts == [LParen]) || (s == ")" && ts == [RParen]) || (s == "," && ts == [Comma]) || (s == " " && ts == [])
    ensures Lexes(s, ts, true)
  {
    forall r: string
      ensures Lex(s + r) == PrependAll(ts, Lex(r))
    {
      assert (s + r)[0] == s[0] && (s + r)[1..] == r;
      NothingBefore(Lex(r));
    }
  }

  lemma NothingBefore(rest: Option<seq<Token>>)
    ensures PrependAll([], rest) == rest
  {
    if rest.Some? {
      assert [] + rest.value == rest.value;
    }
  }

  lemma PlaceholderLexes()
    ensures Lexes("%s", [Placeholder], true)
  {
    forall r: string
      ensures Lex("%s" + r) == PrependAll([Placeholder], Lex(r))
    {
      assert ("%s" + r)[0] == '%' && ("%s" + r)[1] == 's' && ("%s" + r)[2..] == r;
    }
  }

  lemma Glyphs()
    ensures Lexes("(", [LParen], true) && Lexes(")", [RParen], true) && Lexes(",", [Comma], true)
    ensures Lexes(" ", [], true) && Lexes("%s", [Placeholder], true)
  {
    hide Lexes;
    Glyph("(", [LParen]);
    Glyph(")", [RParen]);
    Glyph(",", [Comma]);
    Glyph(" ", []);
    PlaceholderLexes();
  }

  lemma WordLexes(w: string)
    requires IsWord(w)
    ensures Lexes(w, [Word(w)], false)
  {
    forall r: string | Boundary(r)
      ensures Lex(w + r) == PrependAll([Word(w)], Lex(r))
    {
      LexWord(w, r);
    }
  }

  predicate Infixed(s: string) {
    Logical(s) || Additive(s) || s in ["/", "<", "<=", ">", ">=", "=", "<>"]
  }

  lemma OpLexes(s: string)
    requires IsOp(s)
    ensures Lexes(s, [Op(s)], false)
  {
    forall r: string | Boundary(r)
      ensures Lex(s + r) == PrependAll([Op(s)], Lex(r))
    {
      LexOp(s, r);
    }
  }

  /** An infix operator between spaces is one token. */
  lemma SymbolLexes(s: string)
    requires Infixed(s)
    ensures Lexes(" " + s + " ", [SymbolToken(s)], true)
  {
    Glyphs();
    if Logical(s) {
      WordLexes(s);
    } else {
      OpLexes(s);
    }
    hide Lexes;
    Then(" ", [], true, s, [SymbolToken(s)], false);
    Then(" " + s, [] + [SymbolToken(s)], false, " ", [], true);
    assert [] + [SymbolToken(s)] + [] == [SymbolToken(s)];
  }

  /** Every column is one word, and none is a keyword or a literal. */
  predicate IsColumn(c: string) {
    IsWord(c) && |c| > 2 && c[1] == '.'
  }

  lemma ShortColumns()
    ensures IsColumn("m.acos") && IsColumn("m.roas") && IsColumn("m.ctr") && IsColumn("m.cvr") && IsColumn("m.cpc")
    ensures IsColumn("m.tacos") && IsColumn("m.clicks") && IsColumn("m.cost") && IsColumn("m.bid")
  {
  }

  lemma AccountColumns()
    ensures IsColumn("m.impressions") && IsColumn("m.account_cvr") && IsColumn("m.account_ctr")
  {
  }

  lemma BudgetColumns()
    ensures IsColumn("m.days_capped") && IsColumn("m.budget_amount") && IsColumn("m.exists_as_exact")
  {
  }

  lemma AttributedColumns()
    ensures IsColumn("m.attributed_sales_7d") && IsColumn("m.attributed_orders_7d")
  {
  }

  lemma UnitsColumns()
    ensures IsColumn("m.attributed_units_7d") && IsColumn("m.budget_utilisation")
  {
  }

  lemma FlagColumns()
    ensures IsColumn("m.is_already_negative") && IsColumn("e.break_even_acos")
  {
  }

  lemma MarginColumn()
    ensures IsColumn("e.contribution_margin_pct")
  {
  }

  lemma WordsJoin(v: string, w: string)
    requires IsColumn(v) && IsWord(w)
    ensures IsColumn(v + w)
  {
  }

  lemma ShareColumn()
    ensures IsColumn("m.top_of_search_impression_share")
  {
    hide IsColumn, IsWord;
    ShareHalves();
    WordsJoin("m.top_of_search", "_impression_share");
    assert "m.top_of_search" + "_impression_share" == "m.top_of_search_impression_share";
  }

  lemma ShareHalves()
    ensures IsColumn("m.top_of_search") && IsWord("_impression_share")
  {
  }

  lemma ColumnsAreWords(metric: string)
    requires SqlColumn(metric).Some?
    ensures IsColumn(SqlColumn(metric).value)
  {
    ShortColumns();
    AccountColumns();
    BudgetColumns();
    AttributedColumns();
    UnitsColumns();
    FlagColumns();
    MarginColumn();
    ShareColumn();
  }

  lemma MetricIsColumn(node: Json)
    requires FormOf(node).Metric?
    ensures IsColumn(FormOf(node).column)
  {
    ColumnsAreWords(node.fields[0].1.s);
  }

  /** A word directly before a parenthesis is one token too. */
  lemma CallLexes(w: string)
    requires IsWord(w)
    ensures Lexes(w + "(", [Word(w), LParen], true)
  {
    Glyphs();
    forall r: string
      ensures Lex(w + "(" + r) == PrependAll([Word(w), LParen], Lex(r))
    {
      assert w + "(" + r == w + ("(" + r);
      LexWord(w, "(" + r);
      assert Lex("(" + r) == PrependAll([LParen], Lex(r));
      PrependTwice([Word(w)], [LParen], Lex(r));
      assert [Word(w)] + [LParen] == [Word(w), LParen];
    }
  }

  // The fixed parts of the compiled text.

  lemma OpensNegation()
    ensures Lexes("(not ", [LParen, Word("not")], true)
  {
    hide Lexes;
    Glyphs();
    WordLexes("not");
    Then("(", [LParen], true, "not", [Word("not")], false);
    Then("(" + "not", [LParen] + [Word("not")], false, " ", [], true);
    assert "(" + "not" + " " == "(not ";
    assert [LParen] + [Word("not")] + [] == [LParen, Word("not")];
  }

  lemma OpensComparison()
    ensures Lexes("coalesce((", [Word("coalesce"), LParen, LParen], true)
  {
    hide Lexes;
    Glyphs();
    CallLexes("coalesce");
    Then("coalesce" + "(", [Word("coalesce"), LParen], true, "(", [LParen], true);
    assert [Word("coalesce"), LParen] + [LParen] == [Word("coalesce"), LParen, LParen];
    assert "coalesce" + "(" + "(" == "coalesce((";
  }

  lemma ClosesComparison()
    ensures Lexes("), false)", [RParen, Comma, Word("false"), RParen], true)
  {
    hide Lexes;
    Glyphs();
    WordLexes("false");
    Then(")", [RParen], true, ",", [Comma], true);
    Then(")" + ",", [RParen] + [Comma], true, " ", [], true);
    Then(")" + "," + " ", [RParen] + [Comma] + [], true, "false", [Word("false")], false);
    Then(")" + "," + " " + "false", [RParen] + [Comma] + [] + [Word("false")], false, ")", [RParen], true);
    assert ")" + "," + " " + "false" + ")" == "), false)";
    assert [RParen] + [Comma] + [] + [Word("false")] + [RParen] == [RParen, Comma, Word("false"), RParen];
  }

  lemma DividesByNullIf()
    ensures Lexes(" / nullif(", [SymbolToken("/"), Word("nullif"), LParen], true)
  {
    hide Lexes;
    SymbolLexes("/");
    CallLexes("nullif");
    Then(" " + "/" + " ", [SymbolToken("/")], true, "nullif" + "(", [Word("nullif"), LParen], true);
    assert " " + "/" + " " + ("nullif" + "(") == " / nullif(";
    assert [SymbolToken("/")] + [Word("nullif"), LParen] == [SymbolToken("/"), Word("nullif"), LParen];
  }

  lemma ClosesQuotient()
    ensures Lexes(", 0))", [Comma, Word("0"), RParen, RParen], true)
  {
    hide Lexes;
    Glyphs();
    WordLexes("0");
    Then(",", [Comma], true, " ", [], true);
    Then("," + " ", [Comma] + [], true, "0", [Word("0")], false);
    Then("," + " " + "0", [Comma] + [] + [Word("0")], false, ")", [RParen], true);
    Then("," + " " + "0" + ")", [Comma] + [] + [Word("0")] + [RParen], true, ")", [RParen], true);
    assert "," + " " + "0" + ")" + ")" == ", 0))";
    assert [Comma] + [] + [Word("0")] + [RParen] + [RParen] == [Comma, Word("0"), RParen, RParen];
  }

  /** The compiled text lexes to the node's tokens, whatever boundary follows. */
  lemma {:induction false} TextLexes(node: Json)
    requires WellFormed(node)
    ensures Lexes(Text(node), Tokens(node, false), false)
    decreases node, 1
  {
    hide Lexes;
    match FormOf(node)
    case Leaf(_) =>
      Glyphs();
      Freely("%s", [Placeholder]);
    case Metric(column) =>
      MetricIsColumn(node);
      WordLexes(column);
    case Negate(inner) =>
      Glyphs();
      OpensNegation();
      TextLexes(inner);
      Then("(not ", [LParen, Word("not")], true, Text(inner), Tokens(inner, false), false);
      Then("(not " + Text(inner), [LParen, Word("not")] + Tokens(inner, false), false, ")", [RParen], true);
      Freely(Text(node), Tokens(node, false));
    case Apply(op, args) => OperandsLex(op, args);
  }

  lemma {:induction false} OperandsLex(op: Operator, args: seq<Json>)
    requires Fits(op, |args|) && WellFormedAll(args)
    ensures Lexes(Render(op, Texts(args)), Framed(op, args, false), false)
    decreases args, 1
  {
    hide Lexes;
    var a, b := Text(args[0]), Text(args[1]);
    var ta, tb := Tokens(args[0], false), Tokens(args[1], false);
    WellFormedAt(args, 0);
    WellFormedAt(args, 1);
    TextLexes(args[0]);
    TextLexes(args[1]);
    match op {
      case Chain(s) =>
        ChainLexes(s, args);
        ParenthesesLex(Strings.Join(" " + s + " ", Texts(args)), Chained(s, args, false));
      case Comparison(s) =>
        ComparisonLexes(s, a, ta, b, tb);
      case Quotient =>
        QuotientLexes(a, ta, b, tb);
    }
  }

  lemma ParenthesesLex(a: string, ta: seq<Token>)
    requires Lexes(a, ta, false)
    ensures Lexes("(" + a + ")", [LParen] + ta + [RParen], false)
  {
    hide Lexes;
    Glyphs();
    Then("(", [LParen], true, a, ta, false);
    Then("(" + a, [LParen] + ta, false, ")", [RParen], true);
    Freely("(" + a + ")", [LParen] + ta + [RParen]);
  }

  lemma Freely(s: string, ts: seq<Token>)
    requires Lexes(s, ts, true)
    ensures Lexes(s, ts, false)
  {
  }

  lemma ComparisonLexes(s: string, a: string, ta: seq<Token>, b: string, tb: seq<Token>)
    requires Infixed(s) && Lexes(a, ta, false) && Lexes(b, tb, false)
    ensures Lexes("coalesce((" + a + " " + s + " " + b + "), false)",
                  [Word("coalesce"), LParen, LParen] + ta + [SymbolToken(s)] + tb + [RParen, Comma, Word("false"), RParen], false)
  {
    hide Lexes;
    var open, close := [Word("coalesce"), LParen, LParen], [RParen, Comma, Word("false"), RParen];
    var middle := " " + s + " ";
    OpensComparison();
    ClosesComparison();
    SymbolLexes(s);
    Then("coalesce((", open, true, a, ta, false);
    Then("coalesce((" + a, open + ta, false, middle, [SymbolToken(s)], true);
    Then("coalesce((" + a + middle, open + ta + [SymbolToken(s)], true, b, tb, false);
    Then("coalesce((" + a + middle + b, open + ta + [SymbolToken(s)] + tb, false, "), false)", close, true);
    assert "coalesce((" + a + middle + b == "coalesce((" + a + " " + s + " " + b;
    Freely("coalesce((" + a + middle + b + "), false)", open + ta + [SymbolToken(s)] + tb + close);
  }

  lemma QuotientLexes(a: string, ta: seq<Token>, b: string, tb: seq<Token>)
    requires Lexes(a, ta, false) && Lexes(b, tb, false)
    ensures Lexes("(" + a + " / nullif(" + b + ", 0))",
                  [LParen] + ta + [SymbolToken("/"), Word("nullif"), LParen] + tb + [Comma, Word("0"), RParen, RParen], false)
  {
    hide Lexes;
    var middle, close := [SymbolToken("/"), Word("nullif"), LParen], [Comma, Word("0"), RParen, RParen];
    Glyphs();
    DividesByNullIf();
    ClosesQuotient();
    Then("(", [LParen], true, a, ta, false);
    Then("(" + a, [LParen] + ta, false, " / nullif(", middle, true);
    Then("(" + a + " / nullif(", [LParen] + ta + middle, true, b, tb, false);
    Then("(" + a + " / nullif(" + b, [LParen] + ta + middle + tb, false, ", 0))", close, true);
    Freely("(" + a + " / nullif(" + b + ", 0))", [LParen] + ta + middle + tb + close);
  }

  lemma {:induction false} ChainLexes(s: string, args: seq<Json>)
    requires args != [] && WellFormedAll(args) && Infixed(s)
    ensures Lexes(Strings.Join(" " + s + " ", Texts(args)), Chained(s, args, false), false)
    decreases args, 0
  {
    hide Lexes;
    var last := args[|args| - 1];
    TextLexes(last);
    if |args| > 1 {
      var before := args[..|args| - 1];
      var sep := " " + s + " ";
      var text, ts := Strings.Join(sep, Texts(before)), Chained(s, before, false);
      ChainLexes(s, before);
      SymbolLexes(s);
      Then(text, ts, false, sep, [SymbolToken(s)], true);
      Then(text + sep, ts + [SymbolToken(s)], true, Text(last), Tokens(last, false), false);
      Strings.JoinConcat(sep, Texts(before), [Text(last)]);
    }
  }
}
