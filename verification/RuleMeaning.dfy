/**
 What a condition means, read off the JSON tree alone, and the theorem that the
 compiled text with its parameters means the same on every row.
 */
module RuleMeaning {
  import opened Wrappers
  import opened Sql
  import opened RuleCompiler
  import opened RuleReadback
  import opened RuleParsing

  // ------------------------------------------------------ direct meaning

  function Node(op: string, args: seq<Json>): Json {
    JObj([(op, JList(args))])
  }

  function Var(metric: string): Json {
    JObj([("var", JStr(metric))])
  }

  predicate AllTruth(vs: seq<Value>) {
    forall v | v in vs :: Truth(v)
  }

  predicate AllNumeric(vs: seq<Value>) {
    forall v | v in vs :: Numeric(v)
  }

  predicate AllNumbers(vs: seq<Value>) {
    forall v | v in vs :: v.Num?
  }

  /** False as soon as one operand is, whatever the others are. */
  function Conjunction(vs: seq<Value>): Value {
    if !AllTruth(vs) then Bad
    else if Bool(false) in vs then Bool(false)
    else if Null in vs then Null
    else Bool(true)
  }

  function Disjunction(vs: seq<Value>): Value {
    if !AllTruth(vs) then Bad
    else if Bool(true) in vs then Bool(true)
    else if Null in vs then Null
    else Bool(false)
  }

  function Sum(vs: seq<Value>): real
    requires AllNumbers(vs)
  {
    if vs == [] then 0.0 else Sum(vs[..|vs| - 1]) + vs[|vs| - 1].x
  }

  function Product(vs: seq<Value>): real
    requires AllNumbers(vs)
  {
    if vs == [] then 1.0 else Product(vs[..|vs| - 1]) * vs[|vs| - 1].x
  }

  function Total(s: string, vs: seq<Value>): Value
    requires vs != []
  {
    if !AllNumeric(vs) then Bad
    else if Null in vs then Null
    else
      assert AllNumbers(vs) && AllNumbers(vs[1..]);
      if s == "+" then Num(Sum(vs))
      else if s == "*" then Num(Product(vs))
      else Num(vs[0].x - Sum(vs[1..]))
  }

  /** A comparison with a missing side does not match. */
  function Compared(s: string, v: Value, w: Value): Value {
    if v.Bad? || w.Bad? then Bad
    else if v.Null? || w.Null? then Bool(false)
    else
      match Less(v, w)
      case None => Bad
      case Some(less) => Bool(Holds(s, v == w, less))
  }

  /** A missing operand or a zero divisor leaves no quotient. */
  function Ratio(v: Value, w: Value): Value {
    if !Numeric(v) || !Numeric(w) then Bad
    else if v.Null? || w.Null? || w.x == 0.0 then Null
    else Num(v.x / w.x)
  }

  /** Divided from the left. */
  function QuotientOf(vs: seq<Value>): Value
    requires vs != []
  {
    if |vs| == 1 then vs[0] else Ratio(QuotientOf(vs[..|vs| - 1]), vs[|vs| - 1])
  }

  /** All operands of a quotient, or only the two that are printed. */
  function Combine(op: Operator, vs: seq<Value>, whole: bool): Value
    requires |vs| >= 2
  {
    match op
    case Chain(s) => if s == "and" then Conjunction(vs) else if s == "or" then Disjunction(vs) else Total(s, vs)
    case Comparison(s) => Compared(s, vs[0], vs[1])
    case Quotient => QuotientOf(if whole then vs else vs[..2])
  }

  function Sense(node: Json, row: Row, whole: bool): Value
    decreases node, 1
  {
    match FormOf(node)
    case Leaf(v) => v
    case Metric(column) => row(column)
    case Negate(inner) => Not(Sense(inner, row, whole))
    case Apply(op, args) => Combine(op, Senses(args, row, whole), whole)
    case Malformed(_) => Bad
  }

  function Senses(args: seq<Json>, row: Row, whole: bool): (vs: seq<Value>)
    ensures |vs| == |args|
    ensures forall i | 0 <= i < |args| :: vs[i] == Sense(args[i], row, whole)
    decreases args, 0
  {
    if args == [] then [] else Senses(args[..|args| - 1], row, whole) + [Sense(args[|args| - 1], row, whole)]
  }

  /** What a condition means: every operand counts. */
  function Meaning(node: Json, row: Row): Value {
    Sense(node, row, true)
  }

  /** No quotient has more operands than are printed. */
  predicate Exact(node: Json) {
    match FormOf(node)
    case Negate(inner) => Exact(inner)
    case Apply(op, args) => (op.Quotient? ==> |args| == 2) && forall i | 0 <= i < |args| :: Exact(args[i])
    case _ => true
  }

  lemma TwoOperands(v: Value, w: Value)
    ensures QuotientOf([v, w]) == Ratio(v, w)
  {
    assert [v, w][..1] == [v];
  }

  /** With two operands in every quotient, what is printed is all there is. */
  lemma {:induction false} ExactSense(node: Json, row: Row)
    requires Exact(node)
    ensures Sense(node, row, false) == Meaning(node, row)
    decreases node
  {
    match FormOf(node)
    case Negate(inner) => ExactSense(inner, row);
    case Apply(op, args) =>
      forall i | 0 <= i < |args|
        ensures Sense(args[i], row, false) == Meaning(args[i], row)
      {
        ExactSense(args[i], row);
      }
      var vs := Senses(args, row, true);
      assert Senses(args, row, false) == vs;
      assert |vs| == 2 ==> vs[..2] == vs;
    case _ =>
  }

  // --------------------------------------------- the tree means the same

  lemma ConjunctionGrows(vs: seq<Value>, v: Value)
    requires vs != []
    ensures And(if |vs| == 1 then vs[0] else Conjunction(vs), v) == Conjunction(vs + [v])
  {
  }

  lemma DisjunctionGrows(vs: seq<Value>, v: Value)
    requires vs != []
    ensures Or(if |vs| == 1 then vs[0] else Disjunction(vs), v) == Disjunction(vs + [v])
  {
  }

  lemma NumbersOnly(vs: seq<Value>)
    ensures AllNumbers(vs) <==> AllNumeric(vs) && Null !in vs
  {
  }

  lemma SumGrows(vs: seq<Value>, v: Value)
    requires v.Num? && AllNumbers(vs)
    ensures AllNumbers(vs + [v]) && Sum(vs + [v]) == Sum(vs) + v.x && Product(vs + [v]) == Product(vs) * v.x
  {
  }

  lemma OneNumber(vs: seq<Value>)
    requires |vs| == 1 && AllNumbers(vs)
    ensures Sum(vs) == vs[0].x && Product(vs) == vs[0].x && Sum(vs[1..]) == 0.0
  {
  }

  lemma NumbersGrow(s: string, vs: seq<Value>, v: Value)
    requires vs != [] && Additive(s) && AllNumbers(vs) && v.Num?
    ensures Arith(s, if |vs| == 1 then vs[0] else Total(s, vs), v) == Total(s, vs + [v])
  {
    hide Sum, Product;
    var all := vs + [v];
    NumbersOnly(vs);
    NumbersOnly(all);
    SumGrows(vs, v);
    SumGrows(vs[1..], v);
    assert all[1..] == vs[1..] + [v] && all[0] == vs[0];
    if |vs| == 1 {
      OneNumber(vs);
    }
  }

  lemma TotalGrows(s: string, vs: seq<Value>, v: Value)
    requires vs != [] && Additive(s)
    ensures Arith(s, if |vs| == 1 then vs[0] else Total(s, vs), v) == Total(s, vs + [v])
  {
    hide Sum, Product;
    var all := vs + [v];
    assert forall w :: w in all <==> w in vs || w == v;
    if |vs| == 1 {
      assert vs == [vs[0]];
    }
    if AllNumbers(vs) && v.Num? {
      NumbersGrow(s, vs, v);
    } else {
      NumbersOnly(vs);
      NumbersOnly(all);
    }
  }

  lemma ChainStep(s: string, vs: seq<Value>, v: Value)
    requires vs != [] && (Logical(s) || Additive(s))
    ensures var w := if |vs| == 1 then vs[0] else Combine(Chain(s), vs, false);
            Combine(Chain(s), vs + [v], false) == if s == "and" then And(w, v) else if s == "or" then Or(w, v) else Arith(s, w, v)
  {
    hide Conjunction, Disjunction, Total, And, Or, Arith;
    ConjunctionGrows(vs, v);
    DisjunctionGrows(vs, v);
    if Additive(s) {
      TotalGrows(s, vs, v);
    }
  }

  lemma {:induction false} ChainMeaning(s: string, args: seq<Json>, row: Row)
    requires args != [] && WellFormedAll(args) && (Logical(s) || Additive(s))
    ensures Eval(TreeChain(s, args), row)
         == if |args| == 1 then Sense(args[0], row, false) else Combine(Chain(s), Senses(args, row, false), false)
    decreases args, 0
  {
    hide Combine, And, Or, Arith, Tree, Sense;
    var last := args[|args| - 1];
    TreeMeaning(last, row);
    if |args| > 1 {
      var before := args[..|args| - 1];
      ChainMeaning(s, before, row);
      ChainStep(s, Senses(before, row, false), Sense(last, row, false));
    }
  }

  /** The tree SQL evaluates and what is printed of the condition agree on every row. */
  lemma {:induction false} TreeMeaning(node: Json, row: Row)
    requires WellFormed(node)
    ensures Eval(Tree(node), row) == Sense(node, row, false)
    decreases node, 1
  {
    hide Conjunction, Disjunction, Total, Compared, QuotientOf;
    match FormOf(node)
    case Negate(inner) => TreeMeaning(inner, row);
    case Apply(op, args) =>
      WellFormedAt(args, 0);
      WellFormedAt(args, 1);
      TreeMeaning(args[0], row);
      TreeMeaning(args[1], row);
      if op.Chain? {
        ChainMeaning(op.symbol, args, row);
      } else {
        PairMeaning(op, Tree(args[0]), Tree(args[1]), row);
        var vs := Senses(args, row, false);
        TwoOperands(vs[0], vs[1]);
        assert vs[..2] == [vs[0], vs[1]];
      }
    case _ =>
  }

  lemma PairMeaning(op: Operator, l: Expr, r: Expr, row: Row)
    requires op.Comparison? ==> Infixed(op.symbol) && !Logical(op.symbol) && !Additive(op.symbol) && op.symbol != "/"
    ensures op.Comparison? ==>
              Eval(Call("coalesce", [Binary(op.symbol, l, r), Const(Bool(false))]), row) == Compared(op.symbol, Eval(l, row), Eval(r, row))
    ensures op.Quotient? ==>
              Eval(Binary("/", l, Call("nullif", [r, Const(Num(0.0))])), row) == Ratio(Eval(l, row), Eval(r, row))
  {
    var v, w := Eval(l, row), Eval(r, row);
    if op.Comparison? {
      assert Eval(Binary(op.symbol, l, r), row) == Compare(op.symbol, v, w);
      assert Eval(Const(Bool(false)), row) == Bool(false);
    } else {
      assert Eval(Const(Num(0.0)), row) == Num(0.0);
      assert Eval(Call("nullif", [r, Const(Num(0.0))]), row) == NullIf(w, Num(0.0));
    }
  }

  // ------------------------------------------------- parameter alignment

  /** Parameters that no placeholder stands for: a quotient prints two operands and
      drops the text of the others, but keeps their parameters. */
  function Dropped(node: Json): nat
    decreases node, 1
  {
    match FormOf(node)
    case Negate(inner) => Dropped(inner)
    case Apply(op, args) => DroppedBy(op, args)
    case _ => 0
  }

  function DroppedBy(op: Operator, args: seq<Json>): nat
    requires Fits(op, |args|)
    decreases args, 1
  {
    if op.Quotient? then Dropped(args[0]) + Dropped(args[1]) + |ParamsOf(args[2..])| else DroppedOf(args)
  }

  function DroppedOf(args: seq<Json>): nat
    decreases args, 0
  {
    if args == [] then 0 else DroppedOf(args[..|args| - 1]) + Dropped(args[|args| - 1])
  }

  lemma {:induction false} PlaceholdersAdd(ts: seq<Token>, us: seq<Token>)
    ensures Placeholders(ts + us) == Placeholders(ts) + Placeholders(us)
  {
    if ts == [] {
      assert ts + us == us;
    } else {
      assert (ts + us)[1..] == ts[1..] + us;
      PlaceholdersAdd(ts[1..], us);
    }
  }

  lemma {:induction false} ParamsSplit(args: seq<Json>)
    requires |args| >= 2
    ensures ParamsOf(args) == Params(args[0]) + Params(args[1]) + ParamsOf(args[2..])
  {
    hide FormOf, Params;
    var before := args[..|args| - 1];
    if |args| == 2 {
      assert before == [args[0]] && before[..0] == [];
    } else {
      var rest := args[2..];
      ParamsSplit(before);
      assert rest[..|rest| - 1] == before[2..];
      Associative(Params(args[0]) + Params(args[1]), ParamsOf(before[2..]), Params(args[|args| - 1]));
    }
  }

  /** Placeholders printed and parameters dropped account for every parameter. */
  lemma {:induction false} PlaceholderCount(node: Json)
    requires WellFormed(node)
    ensures Placeholders(Tokens(node, false)) + Dropped(node) == |Params(node)|
    decreases node, 1
  {
    match FormOf(node)
    case Negate(inner) =>
      PlaceholderCount(inner);
      PlaceholdersAdd([LParen, Word("not")] + Tokens(inner, false), [RParen]);
      PlaceholdersAdd([LParen, Word("not")], Tokens(inner, false));
    case Apply(op, args) =>
      FramedCount(op, args);
    case _ =>
  }

  lemma TwoCount(open: seq<Token>, a: seq<Token>, middle: seq<Token>, b: seq<Token>, close: seq<Token>)
    ensures Placeholders(open + a + middle + b + close)
         == Placeholders(open) + Placeholders(a) + Placeholders(middle) + Placeholders(b) + Placeholders(close)
  {
    hide Placeholders;
    PlaceholdersAdd(open, a);
    PlaceholdersAdd(open + a, middle);
    PlaceholdersAdd(open + a + middle, b);
    PlaceholdersAdd(open + a + middle + b, close);
  }

  lemma FixedCount(ts: seq<Token>)
    requires forall t | t in ts :: !t.Placeholder?
    ensures Placeholders(ts) == 0
  {
  }

  lemma {:induction false} FramedCount(op: Operator, args: seq<Json>)
    requires Fits(op, |args|) && WellFormedAll(args)
    ensures Placeholders(Framed(op, args, false)) + DroppedBy(op, args) == |ParamsOf(args)|
    decreases args, 1
  {
    hide Placeholders;
    if op.Chain? {
      ChainedCount(op.symbol, args);
      FixedCount([LParen]);
      FixedCount([RParen]);
      PlaceholdersAdd([LParen] + Chained(op.symbol, args, false), [RParen]);
      PlaceholdersAdd([LParen], Chained(op.symbol, args, false));
    } else {
      WellFormedAt(args, 0);
      WellFormedAt(args, 1);
      ParamsSplit(args);
      PlaceholderCount(args[0]);
      PlaceholderCount(args[1]);
      var a, b := Tokens(args[0], false), Tokens(args[1], false);
      if op.Comparison? {
        var open, middle, close := [Word("coalesce"), LParen, LParen], [SymbolToken(op.symbol)], [RParen, Comma, Word("false"), RParen];
        FixedCount(open);
        FixedCount(middle);
        FixedCount(close);
        TwoCount(open, a, middle, b, close);
        PairDropped(args);
      } else {
        var middle, close := [SymbolToken("/"), Word("nullif"), LParen], [Comma, Word("0"), RParen, RParen];
        FixedCount([LParen]);
        FixedCount(middle);
        FixedCount(close);
        TwoCount([LParen], a, middle, b, close);
      }
    }
  }

  lemma PairDropped(args: seq<Json>)
    requires |args| == 2
    ensures DroppedOf(args) == Dropped(args[0]) + Dropped(args[1]) && ParamsOf(args[2..]) == []
  {
    assert args[..1] == [args[0]] && args[..1][..0] == [] && args[2..] == [];
  }

  lemma {:induction false} ChainedCount(s: string, args: seq<Json>)
    requires WellFormedAll(args)
    ensures Placeholders(Chained(s, args, false)) + DroppedOf(args) == |ParamsOf(args)|
    decreases args, 0
  {
    if args != [] {
      var before, last := args[..|args| - 1], args[|args| - 1];
      PlaceholderCount(last);
      ChainedCount(s, before);
      if before != [] {
        PlaceholdersAdd(Chained(s, before, false) + [SymbolToken(s)], Tokens(last, false));
        PlaceholdersAdd(Chained(s, before, false), [SymbolToken(s)]);
      }
    }
  }

  // ------------------------------------------------------------- binding

  lemma {:induction false} BindCounts(ts: seq<Token>, params: seq<Value>)
    ensures Bind(ts, params).Some? <==> Placeholders(ts) == |params|
  {
    if ts != [] {
      if ts[0].Placeholder? {
        if params != [] {
          BindCounts(ts[1..], params[1..]);
        }
      } else {
        BindCounts(ts[1..], params);
      }
    }
  }

  /** Binding `ps` into `ts` gives `us`, whatever follows on both sides. */
  ghost predicate Binds(ts: seq<Token>, ps: seq<Value>, us: seq<Token>) {
    forall ts': seq<Token>, ps': seq<Value> :: Bind(ts + ts', ps + ps') == PrependAll(us, Bind(ts', ps'))
  }

  lemma BindsThen(ts: seq<Token>, ps: seq<Value>, us: seq<Token>, ts': seq<Token>, ps': seq<Value>, us': seq<Token>)
    requires Binds(ts, ps, us) && Binds(ts', ps', us')
    ensures Binds(ts + ts', ps + ps', us + us')
  {
    hide Bind;
    forall t: seq<Token>, p: seq<Value>
      ensures Bind(ts + ts' + t, ps + ps' + p) == PrependAll(us + us', Bind(t, p))
    {
      assert ts + ts' + t == ts + (ts' + t) && ps + ps' + p == ps + (ps' + p);
      assert Bind(ts + (ts' + t), ps + (ps' + p)) == PrependAll(us, Bind(ts' + t, ps' + p));
      PrependTwice(us, us', Bind(t, p));
    }
  }

  lemma {:induction false} FixedBinds(ts: seq<Token>)
    requires forall t | t in ts :: !t.Placeholder?
    ensures Binds(ts, [], ts)
  {
    forall ts': seq<Token>, ps': seq<Value>
      ensures Bind(ts + ts', [] + ps') == PrependAll(ts, Bind(ts', ps'))
    {
      assert [] + ps' == ps';
      FixedBind(ts, ts', ps');
    }
  }

  lemma {:induction false} FixedBind(ts: seq<Token>, ts': seq<Token>, ps': seq<Value>)
    requires forall t | t in ts :: !t.Placeholder?
    ensures Bind(ts + ts', ps') == PrependAll(ts, Bind(ts', ps'))
  {
    if ts == [] {
      assert ts + ts' == ts';
      PrependNothing(Bind(ts', ps'));
    } else {
      assert (ts + ts')[1..] == ts[1..] + ts' && (ts + ts')[0] == ts[0];
      FixedBind(ts[1..], ts', ps');
      PrependTwice([ts[0]], ts[1..], Bind(ts', ps'));
      assert [ts[0]] + ts[1..] == ts;
    }
  }

  lemma PrependNothing(rest: Option<seq<Token>>)
    ensures PrependAll([], rest) == rest
  {
    if rest.Some? {
      assert [] + rest.value == rest.value;
    }
  }

  lemma LeafBinds(v: Value)
    ensures Binds([Placeholder], [v], [Bound(v)])
  {
  }

  /** A fixed frame around an operand. */
  lemma FrameBinds(open: seq<Token>, ts: seq<Token>, ps: seq<Value>, us: seq<Token>, close: seq<Token>)
    requires (forall t | t in open + close :: !t.Placeholder?) && Binds(ts, ps, us)
    ensures Binds(open + ts + close, ps, open + us + close)
  {
    hide Binds;
    FixedBinds(open);
    FixedBinds(close);
    BindsThen(open, [], open, ts, ps, us);
    BindsThen(open + ts, [] + ps, open + us, close, [], close);
    assert [] + ps + [] == ps;
  }

  lemma {:induction false} NodeBinds(node: Json)
    requires WellFormed(node) && Dropped(node) == 0
    ensures Binds(Tokens(node, false), Params(node), Tokens(node, true))
    decreases node, 1
  {
    hide Binds;
    match FormOf(node)
    case Leaf(v) => LeafBinds(v);
    case Metric(column) => FixedBinds([Word(column)]);
    case Negate(inner) =>
      NodeBinds(inner);
      FrameBinds([LParen, Word("not")], Tokens(inner, false), Params(inner), Tokens(inner, true), [RParen]);
    case Apply(op, args) =>
      FramedBinds(op, args);
  }

  lemma {:induction false} FramedBinds(op: Operator, args: seq<Json>)
    requires Fits(op, |args|) && WellFormedAll(args)
    requires DroppedBy(op, args) == 0
    ensures Binds(Framed(op, args, false), ParamsOf(args), Framed(op, args, true))
    decreases args, 1
  {
    hide Binds;
    if op.Chain? {
      ChainBinds(op.symbol, args);
      FrameBinds([LParen], Chained(op.symbol, args, false), ParamsOf(args), Chained(op.symbol, args, true), [RParen]);
    } else {
      WellFormedAt(args, 0);
      WellFormedAt(args, 1);
      ParamsSplit(args);
      NothingDropped(op, args);
      NodeBinds(args[0]);
      NodeBinds(args[1]);
      var a, b := Params(args[0]), Params(args[1]);
      assert ParamsOf(args) == a + b;
      if op.Comparison? {
        TwoBind([Word("coalesce"), LParen, LParen], args[0], [SymbolToken(op.symbol)], args[1], [RParen, Comma, Word("false"), RParen]);
      } else {
        TwoBind([LParen], args[0], [SymbolToken("/"), Word("nullif"), LParen], args[1], [Comma, Word("0"), RParen, RParen]);
      }
    }
  }

  lemma NothingDropped(op: Operator, args: seq<Json>)
    requires Fits(op, |args|) && !op.Chain? && DroppedBy(op, args) == 0
    ensures Dropped(args[0]) == 0 && Dropped(args[1]) == 0 && ParamsOf(args[2..]) == []
  {
    if op.Comparison? {
      PairDropped(args);
    }
  }

  lemma TwoBind(open: seq<Token>, l: Json, middle: seq<Token>, r: Json, close: seq<Token>)
    requires forall t | t in open + middle + close :: !t.Placeholder?
    requires Binds(Tokens(l, false), Params(l), Tokens(l, true)) && Binds(Tokens(r, false), Params(r), Tokens(r, true))
    ensures Binds(open + Tokens(l, false) + middle + Tokens(r, false) + close, Params(l) + Params(r),
                  open + Tokens(l, true) + middle + Tokens(r, true) + close)
  {
    hide Binds, Tokens, Params;
    FrameBinds(open, Tokens(l, false), Params(l), Tokens(l, true), middle);
    BindsThen(open + Tokens(l, false) + middle, Params(l), open + Tokens(l, true) + middle,
              Tokens(r, false), Params(r), Tokens(r, true));
    FixedBinds(close);
    BindsThen(open + Tokens(l, false) + middle + Tokens(r, false), Params(l) + Params(r),
              open + Tokens(l, true) + middle + Tokens(r, true), close, [], close);
    assert Params(l) + Params(r) + [] == Params(l) + Params(r);
  }

  lemma {:induction false} ChainBinds(s: string, args: seq<Json>)
    requires WellFormedAll(args) && args != [] && DroppedOf(args) == 0
    ensures Binds(Chained(s, args, false), ParamsOf(args), Chained(s, args, true))
    decreases args, 0
  {
    hide Binds;
    var before, last := args[..|args| - 1], args[|args| - 1];
    NodeBinds(last);
    if before == [] {
      assert [] + Params(last) == Params(last);
    } else {
      ChainBinds(s, before);
      var ts, us, ps := Chained(s, before, false), Chained(s, before, true), ParamsOf(before);
      FixedBinds([SymbolToken(s)]);
      BindsThen(ts, ps, us, [SymbolToken(s)], [], [SymbolToken(s)]);
      BindsThen(ts + [SymbolToken(s)], ps + [], us + [SymbolToken(s)], Tokens(last, false), Params(last), Tokens(last, true));
      assert ps + [] == ps;
    }
  }

  // -------------------------------------------------------- main theorem

  /** Two operands in every quotient leave no parameter over. */
  lemma {:induction false} ExactDropsNothing(node: Json)
    requires Exact(node)
    ensures Dropped(node) == 0
    decreases node
  {
    match FormOf(node)
    case Negate(inner) => ExactDropsNothing(inner);
    case Apply(op, args) =>
      forall i | 0 <= i < |args|
        ensures Dropped(args[i]) == 0
      {
        ExactDropsNothing(args[i]);
      }
      if op.Quotient? {
        assert args[2..] == [];
      } else {
        NoneDropped(args);
      }
    case _ =>
  }

  lemma {:induction false} NoneDropped(args: seq<Json>)
    requires forall i | 0 <= i < |args| :: Dropped(args[i]) == 0
    ensures DroppedOf(args) == 0
  {
    if args != [] {
      NoneDropped(args[..|args| - 1]);
    }
  }

  /** An accepted condition can be read back exactly when no parameter was dropped, and the SQL then
      means what is printed. It means the whole condition, on every row, when every quotient has two operands. */
  lemma CompiledMeaning(condition: Json)
    requires Compiled(condition).Ok?
    ensures var (sql, params) := Compiled(condition).value;
            && (Read(sql, params).Some? <==> Dropped(condition) == 0)
            && (Read(sql, params).Some? ==>
                  forall row: Row :: Eval(Read(sql, params).value, row) == Sense(condition, row, false))
            && (Exact(condition) ==>
                  Read(sql, params).Some? && forall row: Row :: Eval(Read(sql, params).value, row) == Meaning(condition, row))
  {
    hide Bind, Lex, ParseExpr, Operand, Tokens, Text, Params, FirstError, Sense, Dropped, Exact;
    var sql, params := Text(condition), Params(condition);
    var ts := Tokens(condition, false);
    ErrorFree(condition, 0, 0);
    WholeTextLexes(condition);
    PlaceholderCount(condition);
    BindCounts(ts, params);
    if Exact(condition) {
      ExactDropsNothing(condition);
    }
    if Dropped(condition) == 0 {
      WholeTextParses(condition);
      forall row: Row
        ensures Eval(Tree(condition), row) == Sense(condition, row, false)
        ensures Exact(condition) ==> Eval(Tree(condition), row) == Meaning(condition, row)
      {
        TreeMeaning(condition, row);
        if Exact(condition) {
          ExactSense(condition, row);
        }
      }
    }
  }

  lemma WholeTextLexes(condition: Json)
    requires WellFormed(condition)
    ensures Lex(Text(condition)) == Some(Tokens(condition, false))
  {
    hide Tokens, Text;
    TextLexes(condition);
    assert Text(condition) + "" == Text(condition);
    assert Lex(Text(condition) + "") == PrependAll(Tokens(condition, false), Lex(""));
    assert Tokens(condition, false) + [] == Tokens(condition, false);
  }

  lemma WholeTextParses(condition: Json)
    requires WellFormed(condition) && Dropped(condition) == 0
    ensures Bind(Tokens(condition, false), Params(condition)) == Some(Tokens(condition, true))
    ensures ParseExpr(Tokens(condition, true), 1) == Some((Tree(condition), []))
  {
    hide Tokens, Params, Tree, ParseExpr;
    var ts, us, ps := Tokens(condition, false), Tokens(condition, true), Params(condition);
    NodeBinds(condition);
    assert ts + [] == ts && ps + [] == ps && us + [] == us;
    assert Bind(ts + [], ps + []) == PrependAll(us, Bind([], []));
    TokensParse(condition);
    OperandParses(us, Tree(condition), [], 1);
  }
}
