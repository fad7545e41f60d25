/**
 Missing data never makes a rule fire: for conditions without `not` (logic over
 comparisons over arithmetic) the compiled SQL is never NULL, and losing metrics
 never turns a non-match into a match.
 */
module RuleNulls {
  import opened Wrappers
  import opened Sql
  import opened Numbers
  import opened RuleCompiler
  import opened RuleReadback
  import opened RuleMeaning

  /** The two metrics that hold a truth value; all others hold numbers. */
  predicate Flag(column: string) {
    column in ["m.is_already_negative", "m.exists_as_exact"]
  }

  ghost predicate Typed(row: Row) {
    forall column: string :: if Flag(column) then Truth(row(column)) else Numeric(row(column))
  }

  predicate Arithmetic(node: Json) {
    match FormOf(node)
    case Leaf(v) => Numeric(v)
    case Metric(column) => !Flag(column)
    case Apply(op, args) =>
      (op.Quotient? || (op.Chain? && Additive(op.symbol))) && forall i | 0 <= i < |args| :: Arithmetic(args[i])
    case _ => false
  }

  predicate FlagTerm(node: Json) {
    var f := FormOf(node);
    (f.Leaf? && Truth(f.v)) || (f.Metric? && Flag(f.column))
  }

  /** Logic over comparisons over arithmetic, with no `not`. */
  predicate Positive(node: Json) {
    match FormOf(node)
    case Apply(op, args) =>
      if op.Comparison? then
        (Arithmetic(args[0]) && Arithmetic(args[1])) || (FlagTerm(args[0]) && FlagTerm(args[1]))
      else op.Chain? && Logical(op.symbol) && forall i | 0 <= i < |args| :: Positive(args[i])
    case _ => false
  }

  /** How many operands of a node count: all of them, or those that are printed. */
  function Counted(op: Operator, n: nat, whole: bool): nat {
    if op.Quotient? && !whole && n > 2 then 2 else n
  }

  /** A number that cannot be computed: a missing metric or literal, or a division
      by zero, somewhere in the operands that count. */
  predicate Blank(node: Json, row: Row, whole: bool)
    decreases node
  {
    match FormOf(node)
    case Leaf(v) => v.Null?
    case Metric(column) => row(column).Null?
    case Apply(op, args) =>
      var n := Counted(op, |args|, whole);
      || (exists i | 0 <= i < n :: Blank(args[i], row, whole))
      || (op.Quotient? && exists i | 0 < i < n :: Sense(args[i], row, whole) == Num(0.0))
    case _ => false
  }

  /** A quotient is missing exactly when an operand is, or a later one is zero. */
  lemma {:induction false} QuotientValue(vs: seq<Value>)
    requires vs != [] && AllNumeric(vs)
    ensures Numeric(QuotientOf(vs))
    ensures QuotientOf(vs).Null? <==> Null in vs || exists i | 0 < i < |vs| :: vs[i] == Num(0.0)
  {
    if |vs| > 1 {
      var front, last := vs[..|vs| - 1], vs[|vs| - 1];
      QuotientValue(front);
      assert vs == front + [last];
      assert Numeric(last);
      forall i | 0 < i < |front|
        ensures front[i] == vs[i]
      {
      }
    }
  }

  lemma QuotientBlank(args: seq<Json>, row: Row, whole: bool)
    requires |args| >= 2
    requires forall i | 0 <= i < |args| ::
               Numeric(Sense(args[i], row, whole)) && (Sense(args[i], row, whole).Null? <==> Blank(args[i], row, whole))
    ensures var v := Combine(Quotient, Senses(args, row, whole), whole);
            var n := Counted(Quotient, |args|, whole);
            && Numeric(v)
            && (v.Null? <==> (exists i | 0 <= i < n :: Blank(args[i], row, whole))
                             || (exists i | 0 < i < n :: Sense(args[i], row, whole) == Num(0.0)))
  {
    hide Sense, Blank, QuotientOf;
    var all := Senses(args, row, whole);
    var vs := if whole then all else all[..2];
    assert AllNumeric(vs);
    QuotientValue(vs);
    forall i | 0 <= i < |vs|
      ensures vs[i] == Sense(args[i], row, whole)
    {
    }
  }

  /** Arithmetic is NULL exactly when something that counts is blank, and a number otherwise. */
  lemma {:induction false} ArithmeticValue(node: Json, row: Row, whole: bool)
    requires Arithmetic(node) && Typed(row)
    ensures Numeric(Sense(node, row, whole)) && (Sense(node, row, whole).Null? <==> Blank(node, row, whole))
    decreases node
  {
    hide Conjunction, Disjunction, QuotientOf, Sum, Product;
    match FormOf(node)
    case Apply(op, args) =>
      forall i | 0 <= i < |args|
        ensures Numeric(Sense(args[i], row, whole)) && (Sense(args[i], row, whole).Null? <==> Blank(args[i], row, whole))
      {
        ArithmeticValue(args[i], row, whole);
      }
      if op.Chain? {
        var vs := Senses(args, row, whole);
        assert AllNumeric(vs);
        assert Null in vs <==> exists i | 0 <= i < |args| :: Sense(args[i], row, whole).Null?;
      } else {
        QuotientBlank(args, row, whole);
      }
    case _ =>
  }

  predicate Comparing(node: Json) {
    var f := FormOf(node);
    f.Apply? && f.op.Comparison? && Arithmetic(f.args[0]) && Arithmetic(f.args[1])
  }

  /** A comparison that touches a missing metric or divides by zero means plain false. */
  lemma BlankComparison(node: Json, row: Row, whole: bool)
    requires Comparing(node) && Typed(row)
    requires Blank(FormOf(node).args[0], row, whole) || Blank(FormOf(node).args[1], row, whole)
    ensures Sense(node, row, whole) == Bool(false)
  {
    hide Arithmetic, Blank;
    ArithmeticValue(FormOf(node).args[0], row, whole);
    ArithmeticValue(FormOf(node).args[1], row, whole);
  }

  /** With two operands in every quotient the compiled comparison is false as soon as it touches anything
      missing or divides by zero; otherwise that is sure only of what is printed. */
  lemma BlankNeverMatches(condition: Json, row: Row)
    requires Compiled(condition).Ok? && Comparing(condition) && Dropped(condition) == 0 && Typed(row)
    ensures var (sql, params) := Compiled(condition).value;
            var args := FormOf(condition).args;
            && Read(sql, params).Some?
            && (Blank(args[0], row, false) || Blank(args[1], row, false) ==> Eval(Read(sql, params).value, row) == Bool(false))
            && (Exact(condition) && (Blank(args[0], row, true) || Blank(args[1], row, true)) ==>
                  Eval(Read(sql, params).value, row) == Bool(false))
  {
    hide Read, Eval, Compiled, Dropped, Exact, Comparing, Blank, Sense;
    CompiledMeaning(condition);
    IsComparison(condition);
    var args := FormOf(condition).args;
    if Blank(args[0], row, false) || Blank(args[1], row, false) {
      BlankComparison(condition, row, false);
    }
    if Blank(args[0], row, true) || Blank(args[1], row, true) {
      BlankComparison(condition, row, true);
    }
  }

  lemma IsComparison(node: Json)
    requires Comparing(node)
    ensures FormOf(node).Apply? && |FormOf(node).args| == 2
  {
  }

  /** `less` was obtained from `row` by losing some metrics. */
  ghost predicate Loses(row: Row, less: Row) {
    forall column: string :: less(column) == row(column) || less(column).Null?
  }

  lemma {:induction false} ArithmeticLoses(node: Json, row: Row, less: Row, whole: bool)
    requires Arithmetic(node) && Typed(row) && Loses(row, less)
    ensures Sense(node, less, whole) == Sense(node, row, whole) || Sense(node, less, whole).Null?
    decreases node
  {
    hide Conjunction, Disjunction, QuotientOf, Sum, Product;
    match FormOf(node)
    case Apply(op, args) =>
      LossKeepsTypes(row, less);
      forall i | 0 <= i < |args|
        ensures Sense(args[i], less, whole) == Sense(args[i], row, whole) || Sense(args[i], less, whole).Null?
        ensures Numeric(Sense(args[i], less, whole)) && Numeric(Sense(args[i], row, whole))
      {
        ArithmeticLoses(args[i], row, less, whole);
        ArithmeticValue(args[i], row, whole);
        ArithmeticValue(args[i], less, whole);
      }
      CombineLoses(op, Senses(args, row, whole), Senses(args, less, whole), whole);
    case _ =>
  }

  lemma CombineLoses(op: Operator, vs: seq<Value>, ws: seq<Value>, whole: bool)
    requires |vs| == |ws| >= 2 && (op.Quotient? || (op.Chain? && Additive(op.symbol)))
    requires forall i | 0 <= i < |vs| :: Numeric(vs[i]) && Numeric(ws[i]) && (ws[i] == vs[i] || ws[i].Null?)
    ensures Combine(op, ws, whole) == Combine(op, vs, whole) || Combine(op, ws, whole).Null?
  {
    hide QuotientOf, Sum, Product;
    var some, less := if whole || op.Chain? then vs else vs[..2], if whole || op.Chain? then ws else ws[..2];
    if Null !in less {
      forall i | 0 <= i < |less|
        ensures less[i] == some[i]
      {
        assert less[i] in less;
      }
      assert less == some;
    } else if op.Quotient? {
      QuotientValue(less);
    }
  }

  lemma LossKeepsTypes(row: Row, less: Row)
    requires Typed(row) && Loses(row, less)
    ensures Typed(less)
  {
  }

  /** The value of a positive condition is never NULL, and it can only go from a
      match to a non-match when metrics are lost. */
  lemma {:induction false} PositiveMeaning(node: Json, row: Row, less: Row, whole: bool)
    requires Positive(node) && Typed(row) && Loses(row, less)
    ensures Sense(node, row, whole).Bool? && Sense(node, less, whole).Bool?
    ensures Sense(node, less, whole) == Bool(true) ==> Sense(node, row, whole) == Bool(true)
    decreases node
  {
    hide Conjunction, Disjunction, QuotientOf, Total, Arithmetic;
    var args, op := FormOf(node).args, FormOf(node).op;
    LossKeepsTypes(row, less);
    if op.Comparison? {
      if Arithmetic(args[0]) && Arithmetic(args[1]) {
        ComparisonLoses(node, row, less, whole);
      }
    } else {
      forall i | 0 <= i < |args|
        ensures Sense(args[i], row, whole).Bool? && Sense(args[i], less, whole).Bool?
        ensures Sense(args[i], less, whole) == Bool(true) ==> Sense(args[i], row, whole) == Bool(true)
      {
        PositiveMeaning(args[i], row, less, whole);
      }
      LogicMeaning(op.symbol, Senses(args, row, whole), Senses(args, less, whole), whole);
    }
  }

  lemma ComparisonLoses(node: Json, row: Row, less: Row, whole: bool)
    requires Comparing(node) && Typed(row) && Typed(less) && Loses(row, less)
    ensures Sense(node, row, whole).Bool? && Sense(node, less, whole).Bool?
    ensures Sense(node, less, whole) == Bool(true) ==> Sense(node, row, whole) == Bool(true)
  {
    hide Arithmetic, Blank;
    var args := FormOf(node).args;
    ArithmeticValue(args[0], row, whole);
    ArithmeticValue(args[1], row, whole);
    ArithmeticValue(args[0], less, whole);
    ArithmeticValue(args[1], less, whole);
    ArithmeticLoses(args[0], row, less, whole);
    ArithmeticLoses(args[1], row, less, whole);
  }

  lemma LogicMeaning(s: string, vs: seq<Value>, ws: seq<Value>, whole: bool)
    requires |vs| == |ws| >= 2 && Logical(s)
    requires forall i | 0 <= i < |vs| :: vs[i].Bool? && ws[i].Bool? && (ws[i] == Bool(true) ==> vs[i] == Bool(true))
    ensures Combine(Chain(s), vs, whole).Bool? && Combine(Chain(s), ws, whole).Bool?
    ensures Combine(Chain(s), ws, whole) == Bool(true) ==> Combine(Chain(s), vs, whole) == Bool(true)
  {
  }

  /** The compiled SQL of a positive condition is never NULL, and blanking any
      metrics of a row never turns a non-match into a match. */
  lemma MissingDataNeverMatches(condition: Json, row: Row, less: Row)
    requires Compiled(condition).Ok? && Positive(condition) && Dropped(condition) == 0
    requires Typed(row) && Loses(row, less)
    ensures var (sql, params) := Compiled(condition).value;
            && Read(sql, params).Some?
            && var e := Read(sql, params).value;
            && Eval(e, row).Bool?
            && (Eval(e, less) == Bool(true) ==> Eval(e, row) == Bool(true))
  {
    hide Positive, Typed, Loses, Sense, Eval, Read, Compiled, Dropped, Exact;
    CompiledMeaning(condition);
    PositiveMeaning(condition, row, less, false);
  }

  // -------------------------------------------- where the guard is needed

  predicate PlainMetric(node: Json) {
    FormOf(node).Metric? && !Flag(FormOf(node).column)
  }

  lemma {:induction false} MetricsHaveNoParams(args: seq<Json>)
    requires forall i | 0 <= i < |args| :: PlainMetric(args[i])
    ensures ParamsOf(args) == []
  {
    if args != [] {
      MetricsHaveNoParams(args[..|args| - 1]);
    }
  }

  /** Every further division halves what is left. */
  lemma {:induction false} Halved(vs: seq<Value>)
    requires vs != [] && forall v | v in vs :: v == Num(2.0)
    ensures QuotientOf(vs).Num? && 0.0 < QuotientOf(vs).x && (|vs| > 1 ==> QuotientOf(vs).x <= 1.0) && (|vs| > 2 ==> QuotientOf(vs).x < 1.0)
    ensures |vs| <= 2 ==> QuotientOf(vs).x == if |vs| == 1 then 2.0 else 1.0
  {
    assert vs[|vs| - 1] in vs;
    if |vs| > 1 {
      var front := vs[..|vs| - 1];
      assert forall v | v in front :: v in vs;
      Halved(front);
    }
  }

  lemma QuotientOfTwos(node: Json, row: Row)
    requires FormOf(node).Apply? && FormOf(node).op.Quotient?
    requires forall i | 0 <= i < |FormOf(node).args| :: Sense(FormOf(node).args[i], row, false) == Num(2.0) == Sense(FormOf(node).args[i], row, true)
    ensures Sense(node, row, false) == Meaning(node, row) <==> |FormOf(node).args| == 2
  {
    hide QuotientOf;
    var args := FormOf(node).args;
    var vs, ws := Senses(args, row, true), Senses(args, row, false);
    assert vs == ws;
    Halved(vs);
    Halved(vs[..2]);
    assert |vs| == 2 ==> vs[..2] == vs;
  }

  /** The SQL of a quotient of metrics is the quotient of all of them on every row exactly when there are two. */
  lemma MetricQuotientExactlyWhen(condition: Json)
    requires Compiled(condition).Ok? && FormOf(condition).Apply? && FormOf(condition).op.Quotient?
    requires forall i | 0 <= i < |FormOf(condition).args| :: PlainMetric(FormOf(condition).args[i])
    ensures var (sql, params) := Compiled(condition).value;
            && Read(sql, params).Some?
            && ((forall row: Row | Typed(row) :: Eval(Read(sql, params).value, row) == Meaning(condition, row))
                <==> |FormOf(condition).args| == 2)
  {
    hide Read, Eval, Compiled, FormOf, Sense, Exact, PlainMetric, Dropped, Flag;
    MetricsDropNothing(condition);
    CompiledMeaning(condition);
    var twos := AllTwos(condition);
    if |FormOf(condition).args| == 2 {
      ExactPair(condition);
    }
  }

  lemma AllTwos(node: Json) returns (row: Row)
    requires FormOf(node).Apply? && FormOf(node).op.Quotient?
    requires forall i | 0 <= i < |FormOf(node).args| :: PlainMetric(FormOf(node).args[i])
    ensures Typed(row) && (Sense(node, row, false) == Meaning(node, row) <==> |FormOf(node).args| == 2)
  {
    hide FormOf, Combine, Flag;
    row := (column: string) => if Flag(column) then Bool(false) else Num(2.0);
    var args := FormOf(node).args;
    forall i | 0 <= i < |args|
      ensures Sense(args[i], row, false) == Num(2.0) == Sense(args[i], row, true)
    {
      assert PlainMetric(args[i]);
    }
    QuotientOfTwos(node, row);
  }

  lemma ExactPair(node: Json)
    requires FormOf(node).Apply? && FormOf(node).op.Quotient? && |FormOf(node).args| == 2
    requires forall i | 0 <= i < |FormOf(node).args| :: PlainMetric(FormOf(node).args[i])
    ensures Exact(node)
  {
    hide FormOf;
  }

  lemma MetricsDropNothing(node: Json)
    requires FormOf(node).Apply? && FormOf(node).op.Quotient?
    requires forall i | 0 <= i < |FormOf(node).args| :: PlainMetric(FormOf(node).args[i])
    ensures Dropped(node) == 0
  {
    hide FormOf;
    var args := FormOf(node).args;
    assert PlainMetric(args[0]) && PlainMetric(args[1]);
    assert Dropped(args[0]) == 0 && Dropped(args[1]) == 0;
    forall i | 0 <= i < |args[2..]|
      ensures PlainMetric(args[2..][i])
    {
      assert args[2..][i] == args[i + 2];
    }
    MetricsHaveNoParams(args[2..]);
    assert DroppedBy(Quotient, args) == 0;
  }

  /** More operands need not show: dividing once more by something divided by itself changes nothing. */
  lemma SelfQuotientAgrees(node: Json, a: Json, b: Json, q: Json, row: Row)
    requires FormOf(node) == Apply(Quotient, [a, b, q]) && FormOf(q) == Apply(Quotient, [b, b])
    requires Exact(a) && Exact(b)
    ensures !Exact(node) && Sense(node, row, false) == Meaning(node, row)
  {
    hide QuotientOf, FormOf, Ratio, Exact;
    ExactSense(a, row);
    ExactSense(b, row);
    LongIsNotExact(node);
    var v, w := Meaning(a, row), Meaning(b, row);
    PairSense(q, b, b, row);
    TripleSense(node, a, b, q, row);
    SelfRatio(v, w);
  }

  lemma LongIsNotExact(node: Json)
    requires FormOf(node).Apply? && FormOf(node).op.Quotient? && |FormOf(node).args| > 2
    ensures !Exact(node)
  {
  }

  lemma PairSense(q: Json, l: Json, r: Json, row: Row)
    requires FormOf(q) == Apply(Quotient, [l, r])
    ensures Meaning(q, row) == Ratio(Meaning(l, row), Meaning(r, row))
  {
    hide QuotientOf, FormOf, Ratio;
    TwoOperands(Meaning(l, row), Meaning(r, row));
    assert Senses([l, r], row, true) == [Meaning(l, row), Meaning(r, row)];
  }

  lemma TripleSense(node: Json, a: Json, b: Json, q: Json, row: Row)
    requires FormOf(node) == Apply(Quotient, [a, b, q])
    ensures Meaning(node, row) == Ratio(Ratio(Meaning(a, row), Meaning(b, row)), Meaning(q, row))
    ensures Sense(node, row, false) == Ratio(Sense(a, row, false), Sense(b, row, false))
  {
    hide QuotientOf, FormOf, Ratio;
    var vs, ws := Senses([a, b, q], row, true), Senses([a, b, q], row, false);
    ThreeSenses(a, b, q, row, true);
    ThreeSenses(a, b, q, row, false);
    assert ws[..2] == [ws[0], ws[1]];
    TwoOperands(ws[0], ws[1]);
    ThreeOperands(vs[0], vs[1], vs[2]);
  }

  lemma ThreeSenses(a: Json, b: Json, q: Json, row: Row, whole: bool)
    ensures Senses([a, b, q], row, whole) == [Sense(a, row, whole), Sense(b, row, whole), Sense(q, row, whole)]
  {
    hide Sense;
  }

  lemma SelfRatio(v: Value, w: Value)
    ensures Ratio(Ratio(v, w), Ratio(w, w)) == Ratio(v, w)
  {
    if Numeric(v) && Numeric(w) && v.Num? && w.Num? && w.x != 0.0 {
      assert w.x / w.x == 1.0;
    }
  }

  lemma ThreeOperands(u: Value, v: Value, w: Value)
    ensures QuotientOf([u, v, w]) == Ratio(Ratio(u, v), w)
  {
    TwoOperands(u, v);
    assert [u, v, w][..2] == [u, v];
  }

  lemma LeafFacts(node: Json)
    requires FormOf(node).Leaf? || FormOf(node).Metric?
    ensures WellFormed(node) && Size(node) == 1 && Height(node) == 0
  {
  }

  lemma ThreeMetricForms()
    ensures FormOf(Var("cost")) == Metric("m.cost") && FormOf(Var("clicks")) == Metric("m.clicks")
    ensures FormOf(Var("impressions")) == Metric("m.impressions")
    ensures !Flag("m.cost") && !Flag("m.clicks") && !Flag("m.impressions")
  {
  }

  lemma PairOf(op: string, symbol: string, l: Json, r: Json)
    requires SqlComparison(op) == Some(symbol) && op != "var" && op != "not"
    ensures FormOf(Node(op, [l, r])) == Apply(Comparison(symbol), [l, r])
  {
  }

  lemma QuotientForm(args: seq<Json>)
    requires |args| >= 2
    ensures FormOf(Node("/", args)) == Apply(Quotient, args)
  {
  }

  /**
   A three-metric quotient is accepted and can be read back, but its third metric is ignored: with it missing
   the quotient has a value, and a comparison that touches it matches.
   */
  lemma ThirdMetricIsIgnored(row: Row)
    requires row("m.cost") == Num(1.0) && row("m.clicks") == Num(1.0) && row("m.impressions") == Null
    ensures var ratio := Node("/", [Var("cost"), Var("clicks"), Var("impressions")]);
            var condition := Node("<", [ratio, JNum(5.0)]);
            && Compiled(condition).Ok? && Dropped(condition) == 0 && Comparing(condition) && Blank(ratio, row, true)
            && Meaning(condition, row) == Bool(false)
            && var (sql, params) := Compiled(condition).value;
            Read(sql, params).Some? && Eval(Read(sql, params).value, row) == Bool(true)
  {
    hide FormOf, Read, Eval, Compiled, Sense, Dropped, Blank, Comparing;
    var args := [Var("cost"), Var("clicks"), Var("impressions")];
    var ratio, five := Node("/", args), JNum(5.0);
    var condition := Node("<", [ratio, five]);
    ThreeMetricForms();
    QuotientForm(args);
    PairOf("<", "<", ratio, five);
    NumberForm(5.0);
    ThreeMetricsAccepted(condition, ratio, args, five);
    ThreeMetricsValue(condition, ratio, args, five, row);
    CompiledMeaning(condition);
  }

  /** Even with all its metrics there, a three-metric quotient is computed without the third. */
  lemma ThirdMetricIsLost(row: Row)
    requires row("m.cost") == row("m.clicks") == row("m.impressions") == Num(2.0)
    ensures var ratio := Node("/", [Var("cost"), Var("clicks"), Var("impressions")]);
            && Compiled(ratio).Ok? && Dropped(ratio) == 0 && Meaning(ratio, row) == Num(0.5)
            && var (sql, params) := Compiled(ratio).value;
            Read(sql, params).Some? && Eval(Read(sql, params).value, row) == Num(1.0)
  {
    hide FormOf, Read, Eval, Compiled, Sense, Dropped, Exact;
    var args := [Var("cost"), Var("clicks"), Var("impressions")];
    var ratio := Node("/", args);
    ThreeMetricForms();
    QuotientForm(args);
    RatioAccepted(ratio, args);
    MetricsDropNothing(ratio);
    RatioOfTwos(ratio, Var("cost"), Var("clicks"), Var("impressions"), row);
    CompiledMeaning(ratio);
  }

  lemma RatioAccepted(ratio: Json, args: seq<Json>)
    requires FormOf(ratio) == Apply(Quotient, args) && |args| == 3 && forall i | 0 <= i < 3 :: PlainMetric(args[i])
    ensures Compiled(ratio).Ok?
  {
    hide FormOf;
    RatioFacts(ratio, args);
    ErrorFree(ratio, 0, 0);
  }

  lemma RatioOfTwos(ratio: Json, a: Json, b: Json, c: Json, row: Row)
    requires FormOf(ratio) == Apply(Quotient, [a, b, c]) && FormOf(a).Metric? && FormOf(b).Metric? && FormOf(c).Metric?
    requires row(FormOf(a).column) == row(FormOf(b).column) == row(FormOf(c).column) == Num(2.0)
    ensures Meaning(ratio, row) == Num(0.5) && Sense(ratio, row, false) == Num(1.0)
  {
    hide FormOf, Combine;
    TripleSense(ratio, a, b, c, row);
  }

  lemma ThreeMetricsAccepted(condition: Json, ratio: Json, args: seq<Json>, five: Json)
    requires FormOf(condition) == Apply(Comparison("<"), [ratio, five]) && FormOf(ratio) == Apply(Quotient, args)
    requires |args| == 3 && FormOf(five) == Leaf(Num(5.0)) && forall i | 0 <= i < 3 :: PlainMetric(args[i])
    ensures Compiled(condition).Ok? && Dropped(condition) == 0 && Comparing(condition)
  {
    hide FormOf, Dropped, Arithmetic, Comparing;
    RatioFacts(ratio, args);
    LeafFacts(five);
    ConstantFacts(five);
    PairFacts(ratio, five);
    MetricsDropNothing(ratio);
    ComparisonFacts(condition, ratio, five);
    ErrorFree(condition, 0, 0);
  }

  lemma RatioFacts(ratio: Json, args: seq<Json>)
    requires FormOf(ratio) == Apply(Quotient, args) && |args| == 3 && forall i | 0 <= i < 3 :: PlainMetric(args[i])
    ensures WellFormed(ratio) && Size(ratio) == 4 && Height(ratio) == 1 && Arithmetic(ratio)
  {
    hide FormOf, Flag;
    assert PlainMetric(args[0]) && PlainMetric(args[1]) && PlainMetric(args[2]);
    LeafFacts(args[0]);
    LeafFacts(args[1]);
    LeafFacts(args[2]);
    assert [args[0], args[1]] + [args[2]] == args;
    PairFacts(args[0], args[1]);
    SnocFacts([args[0], args[1]], args[2]);
  }

  lemma ConstantFacts(five: Json)
    requires FormOf(five) == Leaf(Num(5.0))
    ensures Arithmetic(five) && Dropped(five) == 0
  {
  }

  lemma ComparisonFacts(condition: Json, l: Json, r: Json)
    requires FormOf(condition) == Apply(Comparison("<"), [l, r]) && WellFormedAll([l, r])
    requires Dropped(l) == 0 && Dropped(r) == 0 && Arithmetic(l) && Arithmetic(r)
    ensures WellFormed(condition) && Dropped(condition) == 0 && Comparing(condition)
    ensures Size(condition) == 1 + SizeOf([l, r]) && Height(condition) == 1 + HeightOf([l, r])
  {
    hide FormOf, Arithmetic;
    PairDropped([l, r]);
  }

  lemma ThreeMetricsValue(condition: Json, ratio: Json, args: seq<Json>, five: Json, row: Row)
    requires FormOf(condition) == Apply(Comparison("<"), [ratio, five]) && FormOf(ratio) == Apply(Quotient, args)
    requires |args| == 3 && FormOf(five) == Leaf(Num(5.0)) && forall i | 0 <= i < 3 :: FormOf(args[i]).Metric?
    requires row(FormOf(args[0]).column) == row(FormOf(args[1]).column) == Num(1.0) && row(FormOf(args[2]).column) == Null
    ensures Blank(ratio, row, true) && Meaning(condition, row) == Bool(false) && Sense(condition, row, false) == Bool(true)
  {
    hide FormOf, QuotientOf, Combine, Compared;
    assert args == [args[0], args[1], args[2]];
    assert Sense(args[0], row, false) == Sense(args[0], row, true) == Num(1.0);
    TripleSense(ratio, args[0], args[1], args[2], row);
    BlankThird(ratio, args, row);
    assert Senses([ratio, five], row, true) == [Null, Num(5.0)] && Senses([ratio, five], row, false) == [Num(1.0), Num(5.0)];
    CombineComparison(Null, Num(5.0), true);
    CombineComparison(Num(1.0), Num(5.0), false);
  }

  lemma BlankThird(ratio: Json, args: seq<Json>, row: Row)
    requires FormOf(ratio) == Apply(Quotient, args) && |args| == 3 && FormOf(args[2]).Metric? && row(FormOf(args[2]).column) == Null
    ensures Blank(ratio, row, true)
  {
    hide FormOf, Sense;
    assert Blank(args[2], row, true);
  }

  lemma CombineComparison(v: Value, w: Value, whole: bool)
    requires Numeric(v) && w.Num?
    ensures Combine(Comparison("<"), [v, w], whole) == Bool(v.Num? && v.x < w.x)
  {
  }

  lemma PairFacts(l: Json, r: Json)
    ensures WellFormedAll([l, r]) <==> WellFormed(l) && WellFormed(r)
    ensures SizeOf([l, r]) == Size(l) + Size(r) && HeightOf([l, r]) == Larger(Height(l), Height(r))
  {
    SnocFacts([], l);
    SnocFacts([l], r);
    assert [] + [l] == [l] && [l] + [r] == [l, r];
  }

  lemma SnocFacts(args: seq<Json>, last: Json)
    ensures WellFormedAll(args + [last]) <==> WellFormedAll(args) && WellFormed(last)
    ensures SizeOf(args + [last]) == SizeOf(args) + Size(last)
    ensures HeightOf(args + [last]) == Larger(HeightOf(args), Height(last))
  {
  }

  /** With `not` the second half fails: losing the metric makes the SQL of this one match. */
  lemma NegationMatchesMissingData(row: Row, less: Row)
    requires row("m.acos") == Num(0.25) && less("m.acos") == Null
    ensures var condition := JObj([("not", Node("<", [Var("acos"), JNum(0.5)]))]);
            && Compiled(condition).Ok?
            && var (sql, params) := Compiled(condition).value;
            && Read(sql, params).Some?
            && Eval(Read(sql, params).value, row) == Bool(false) && Eval(Read(sql, params).value, less) == Bool(true)
  {
    hide FormOf, Read, Eval, Compiled, Sense, Exact, Dropped;
    var acos, half := Var("acos"), JNum(0.5);
    var low := Node("<", [acos, half]);
    var condition := JObj([("not", low)]);
    NegationForms();
    NegatedValue(condition, low, acos, half, row);
    NegatedValue(condition, low, acos, half, less);
    NegationAccepted(condition, low, acos, half);
    CompiledMeaning(condition);
  }

  lemma NegationForms()
    ensures var acos, half := Var("acos"), JNum(0.5);
            var low := Node("<", [acos, half]);
            && FormOf(acos) == Metric("m.acos") && FormOf(half) == Leaf(Num(0.5))
            && FormOf(low) == Apply(Comparison("<"), [acos, half])
            && FormOf(JObj([("not", low)])) == Negate(low)
  {
  }

  lemma NegatedValue(condition: Json, low: Json, l: Json, r: Json, row: Row)
    requires FormOf(condition) == Negate(low) && FormOf(low) == Apply(Comparison("<"), [l, r])
    requires FormOf(l).Metric? && FormOf(r) == Leaf(Num(0.5))
    ensures Meaning(condition, row) == Not(Compared("<", row(FormOf(l).column), Num(0.5)))
  {
    hide FormOf, Compared;
    assert Senses([l, r], row, true) == [row(FormOf(l).column), Num(0.5)];
    assert Sense(low, row, true) == Compared("<", row(FormOf(l).column), Num(0.5));
  }

  lemma NegationAccepted(condition: Json, low: Json, l: Json, r: Json)
    requires FormOf(condition) == Negate(low) && FormOf(low) == Apply(Comparison("<"), [l, r])
    requires FormOf(l).Metric? && FormOf(r).Leaf?
    ensures Compiled(condition).Ok? && Exact(condition)
  {
    hide FormOf;
    LeafFacts(l);
    LeafFacts(r);
    PairFacts(l, r);
    assert WellFormed(low) && Size(low) == 3 && Height(low) == 1;
    NegationExact(condition, low, l, r);
    ErrorFree(condition, 0, 0);
  }

  lemma NegationExact(condition: Json, low: Json, l: Json, r: Json)
    requires FormOf(condition) == Negate(low) && FormOf(low) == Apply(Comparison("<"), [l, r])
    requires FormOf(l).Metric? && FormOf(r).Leaf?
    ensures Exact(condition)
  {
    hide FormOf;
    assert Exact(l) && Exact(r);
    assert Exact(low);
  }

  /** A three-operand quotient of literals compiles, but to text that cannot be bound:
      two placeholders for three parameters. */
  lemma LongQuotientIsUnreadable(x: real, y: real, z: real)
    ensures var condition := JObj([("/", JList([JNum(x), JNum(y), JNum(z)]))]);
            && Compiled(condition).Ok? && Dropped(condition) == 1
            && Read(Compiled(condition).value.0, Compiled(condition).value.1) == None
  {
    hide FormOf, Read, Eval, Compiled, Sense, Exact, Dropped;
    var a, b, c := JNum(x), JNum(y), JNum(z);
    var condition := Node("/", [a, b, c]);
    QuotientForm([a, b, c]);
    NumberForm(x);
    NumberForm(y);
    NumberForm(z);
    ThreeLiterals(condition, a, b, c);
    CompiledMeaning(condition);
  }

  lemma NumberForm(x: real)
    ensures FormOf(JNum(x)) == Leaf(Num(x))
  {
  }

  lemma ThreeLiterals(condition: Json, a: Json, b: Json, c: Json)
    requires FormOf(condition) == Apply(Quotient, [a, b, c]) && FormOf(a).Leaf? && FormOf(b).Leaf? && FormOf(c).Leaf?
    ensures Compiled(condition).Ok? && Dropped(condition) == 1
  {
    hide FormOf, Dropped;
    LeafFacts(a);
    LeafFacts(b);
    LeafFacts(c);
    PairFacts(a, b);
    SnocFacts([a, b], c);
    assert [a, b] + [c] == [a, b, c];
    ErrorFree(condition, 0, 0);
    ThirdDropped(condition, a, b, c);
  }

  lemma ThirdDropped(condition: Json, a: Json, b: Json, c: Json)
    requires FormOf(condition) == Apply(Quotient, [a, b, c]) && FormOf(a).Leaf? && FormOf(b).Leaf? && FormOf(c).Leaf?
    ensures Dropped(condition) == 1
  {
    hide FormOf;
    OneParam(c);
    assert [a, b, c][2..] == [c];
    assert Dropped(a) == 0 && Dropped(b) == 0;
    assert DroppedBy(Quotient, [a, b, c]) == 1;
  }

  lemma OneParam(c: Json)
    requires FormOf(c).Leaf?
    ensures |ParamsOf([c])| == 1
  {
    hide FormOf;
    assert [c][..0] == [];
    assert ParamsOf([c]) == ParamsOf([]) + Params(c);
  }
}
