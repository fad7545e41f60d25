/**
 What each operator of a rule condition does, and which conditions there are: stated on the JSON by the operators'
 names and on the answers the compiled SQL gives.
 */
module RuleLaws {
  import opened Wrappers
  import opened Sql
  import opened Numbers
  import opened RuleCompiler
  import opened RuleReadback
  import opened RuleMeaning
  import O = Ordering

  /** What the compiled SQL, read back with its parameters, gives on a row. */
  function Answer(condition: Json, row: Row): Option<Value> {
    match Compiled(condition)
    case Err(_) => None
    case Ok((sql, params)) =>
      match Read(sql, params)
      case None => None
      case Some(e) => Some(Eval(e, row))
  }

  // ------------------------------------------------------------ legal input

  const METRICS: map<string, string> := map[
    "acos" := "m.acos", "roas" := "m.roas", "ctr" := "m.ctr", "cvr" := "m.cvr", "cpc" := "m.cpc", "tacos" := "m.tacos",
    "clicks" := "m.clicks", "impressions" := "m.impressions", "cost" := "m.cost", "attributed_sales" := "m.attributed_sales_7d",
    "attributed_orders" := "m.attributed_orders_7d", "attributed_units" := "m.attributed_units_7d", "bid" := "m.bid",
    "budget" := "m.budget_amount", "budget_utilisation" := "m.budget_utilisation", "days_capped" := "m.days_capped",
    "top_of_search_is" := "m.top_of_search_impression_share", "account_cvr" := "m.account_cvr", "account_ctr" := "m.account_ctr",
    "break_even_acos" := "e.break_even_acos", "contribution_margin_pct" := "e.contribution_margin_pct",
    "is_already_negative" := "m.is_already_negative", "exists_as_exact" := "m.exists_as_exact"]

  const COMPARISONS := ["==", "!=", "<", "<=", ">", ">="]
  const CHAINS := ["and", "or", "+", "-", "*", "/"]

  /** The grammar of conditions. */
  predicate Legal(node: Json) {
    match node
    case JList(_) => false
    case JObj(fields) =>
      && |fields| == 1
      && var (op, arg) := fields[0];
      if op == "var" then arg.JStr? && arg.s in METRICS
      else if op == "not" then if arg.JList? then arg.items != [] && Legal(arg.items[0]) else Legal(arg)
      else
        && arg.JList?
        && ((op in COMPARISONS && |arg.items| == 2) || (op in CHAINS && |arg.items| >= 2))
        && forall i | 0 <= i < |arg.items| :: Legal(arg.items[i])
    case _ => true
  }

  /** No operand is nested deeper than that below the node. */
  predicate Within(node: Json, depth: int) {
    && depth >= 0
    && (node.JObj? && |node.fields| == 1 ==>
          var (op, arg) := node.fields[0];
          if op == "not" then if arg.JList? then arg.items == [] || Within(arg.items[0], depth - 1) else Within(arg, depth - 1)
          else arg.JList? ==> forall i | 0 <= i < |arg.items| :: Within(arg.items[i], depth - 1))
  }

  /** Operators, metrics and literals count one each. */
  function Nodes(node: Json): nat
    decreases node, 1
  {
    if !node.JObj? || |node.fields| != 1 then 1
    else
      var (op, arg) := node.fields[0];
      if op == "not" then 1 + (if !arg.JList? then Nodes(arg) else if arg.items == [] then 0 else Nodes(arg.items[0]))
      else if arg.JList? then 1 + NodesOf(arg.items)
      else 1
  }

  function NodesOf(items: seq<Json>): nat
    decreases items, 0
  {
    if items == [] then 0 else Nodes(items[0]) + NodesOf(items[1..])
  }

  lemma MetricsAre(metric: string)
    ensures SqlColumn(metric) == if metric in METRICS then Some(METRICS[metric]) else None
  {
  }

  // ------------------------------------------------ the grammar is accepted

  /** A legal node in the terms of the compiler. */
  lemma FormOfLegal(op: string, arg: Json)
    ensures var f := FormOf(JObj([(op, arg)]));
            && (op == "var" ==> f == if !arg.JStr? then Malformed(VarNeedsName)
                                     else if arg.s in METRICS then Metric(METRICS[arg.s]) else Malformed(UnknownMetric))
            && (op == "not" ==> f == if !arg.JList? then Negate(arg)
                                     else if arg.items == [] then Malformed(NegationOfNothing) else Negate(arg.items[0]))
            && (op != "var" && op != "not" && (op in COMPARISONS || op in CHAINS) ==>
                  f == if !arg.JList? || |arg.items| < 2 then Malformed(NeedsTwoOperands)
                       else if op in COMPARISONS && |arg.items| != 2 then Malformed(TakesExactlyTwo)
                       else Apply(OperatorOf(op), arg.items))
            && (op != "var" && op != "not" && op !in COMPARISONS && op !in CHAINS ==> f == Malformed(OperatorNotAllowed))
  {
    if op == "var" && arg.JStr? {
      MetricsAre(arg.s);
    }
  }

  function OperatorOf(op: string): Operator {
    if op == "/" then Quotient else if op == "==" then Comparison("=") else if op == "!=" then Comparison("<>")
    else if op in COMPARISONS then Comparison(op) else Chain(op)
  }

  lemma {:induction false} LegalIs(node: Json)
    ensures Legal(node) <==> WellFormed(node)
    decreases node, 1
  {
    hide FormOf;
    if node.JObj? && |node.fields| == 1 {
      var (op, arg) := node.fields[0];
      assert node == JObj([(op, arg)]);
      FormOfLegal(op, arg);
      if op == "not" {
        if !arg.JList? {
          LegalIs(arg);
        } else if arg.items != [] {
          LegalIs(arg.items[0]);
        }
      } else if op != "var" && arg.JList? {
        LegalAll(arg.items);
      }
    } else {
      OtherForms(node);
    }
  }

  lemma {:induction false} LegalAll(items: seq<Json>)
    ensures WellFormedAll(items) <==> forall i | 0 <= i < |items| :: Legal(items[i])
    decreases items, 0
  {
    hide Legal, WellFormed;
    if items != [] {
      var n := |items| - 1;
      LegalAll(items[..n]);
      LegalIs(items[n]);
      assert forall i | 0 <= i < n :: items[..n][i] == items[i];
    }
  }

  lemma OtherForms(node: Json)
    requires !(node.JObj? && |node.fields| == 1)
    ensures FormOf(node).Malformed? <==> node.JList? || node.JObj?
    ensures FormOf(node).Leaf? || FormOf(node).Malformed?
  {
  }

  lemma {:induction false} WithinIs(node: Json, depth: int)
    requires WellFormed(node)
    ensures Within(node, depth) <==> Height(node) <= depth
    decreases node, 1
  {
    hide FormOf;
    if node.JObj? && |node.fields| == 1 {
      var (op, arg) := node.fields[0];
      assert node == JObj([(op, arg)]);
      FormOfLegal(op, arg);
      if op == "not" {
        if !arg.JList? {
          WithinIs(arg, depth - 1);
        } else if arg.items != [] {
          WithinIs(arg.items[0], depth - 1);
        }
      } else if op != "var" && arg.JList? {
        WithinAll(arg.items, depth - 1);
      }
    } else {
      OtherForms(node);
    }
  }

  lemma {:induction false} WithinAll(items: seq<Json>, depth: int)
    requires WellFormedAll(items) && items != []
    ensures (forall i | 0 <= i < |items| :: Within(items[i], depth)) <==> HeightOf(items) <= depth
    decreases items, 0
  {
    hide Within, WellFormed;
    var n := |items| - 1;
    WithinIs(items[n], depth);
    if n > 0 {
      WithinAll(items[..n], depth);
    }
    assert forall i | 0 <= i < n :: items[..n][i] == items[i];
  }

  lemma {:induction false} NodesIs(node: Json)
    requires WellFormed(node)
    ensures Nodes(node) == Size(node)
    decreases node, 1
  {
    hide FormOf;
    if node.JObj? && |node.fields| == 1 {
      var (op, arg) := node.fields[0];
      assert node == JObj([(op, arg)]);
      FormOfLegal(op, arg);
      if op == "not" {
        if !arg.JList? {
          NodesIs(arg);
        } else if arg.items != [] {
          NodesIs(arg.items[0]);
        }
      } else if op != "var" && arg.JList? {
        NodesAll(arg.items);
      }
    } else {
      OtherForms(node);
    }
  }

  lemma {:induction false} NodesAll(items: seq<Json>)
    requires WellFormedAll(items)
    ensures NodesOf(items) == SizeOf(items)
    decreases items, 0
  {
    hide Nodes, WellFormed, Size;
    if items != [] {
      var n := |items| - 1;
      NodesAll(items[..n]);
      NodesIs(items[n]);
      NodesOfLast(items);
    }
  }

  lemma {:induction false} NodesOfLast(items: seq<Json>)
    requires items != []
    ensures NodesOf(items) == NodesOf(items[..|items| - 1]) + Nodes(items[|items| - 1])
  {
    hide Nodes;
    var n := |items| - 1;
    if n > 0 {
      NodesOfLast(items[1..]);
      assert items[1..][..n - 1] == items[..n][1..];
    } else {
      assert items[..0] == [] && items[1..] == [];
    }
  }

  /** A condition is accepted exactly when it is of the grammar, nothing is nested deeper than eight, and at most 120 nodes count. */
  lemma AcceptedExactlyWhen(condition: Json)
    ensures Compiled(condition).Ok? <==> Legal(condition) && Within(condition, 8) && Nodes(condition) <= 120
  {
    hide Legal, Within, Nodes, WellFormed, Height, Size, FirstError;
    ErrorFree(condition, 0, 0);
    LegalIs(condition);
    if WellFormed(condition) {
      WithinIs(condition, 8);
      NodesIs(condition);
    }
  }

  // ------------------------------------------------------------- answers

  /** What is printed decides, once nothing was dropped. */
  lemma AnswerIs(condition: Json, row: Row)
    ensures Answer(condition, row)
         == if Compiled(condition).Ok? && Dropped(condition) == 0 then Some(Sense(condition, row, false)) else None
  {
    hide Read, Eval, Compiled, Sense, Dropped, Exact;
    if Compiled(condition).Ok? {
      CompiledMeaning(condition);
    }
  }

  lemma AnswerOf(operand: Json, row: Row)
    requires WellFormed(operand) && Height(operand) <= 8 && Size(operand) <= 120 && Dropped(operand) == 0
    ensures Answer(operand, row) == Some(Sense(operand, row, false))
  {
    hide Answer, Sense, Dropped, WellFormed, Height, Size, FirstError;
    ErrorFree(operand, 0, 0);
    AnswerIs(operand, row);
  }

  lemma Accepted(condition: Json)
    requires Compiled(condition).Ok?
    ensures WellFormed(condition) && Height(condition) <= 8 && Size(condition) <= 120
  {
    hide WellFormed, Height, Size, FirstError;
    ErrorFree(condition, 0, 0);
  }

  lemma {:induction false} OperandFits(args: seq<Json>, i: nat)
    requires i < |args| && WellFormedAll(args)
    ensures WellFormed(args[i]) && Height(args[i]) <= HeightOf(args) && Size(args[i]) <= SizeOf(args)
    ensures DroppedOf(args) == 0 ==> Dropped(args[i]) == 0
  {
    hide WellFormed, Height, Size, Dropped;
    if i < |args| - 1 {
      OperandFits(args[..|args| - 1], i);
    }
  }

  /** The printed operands of an answered operator are answered themselves. */
  lemma OperandsAnswer(op: string, args: seq<Json>, row: Row)
    requires (op in COMPARISONS && |args| == 2) || (op in CHAINS && |args| >= 2)
    requires Answer(Node(op, args), row).Some?
    ensures FormOf(Node(op, args)) == Apply(OperatorOf(op), args)
    ensures Answer(Node(op, args), row) == Some(Combine(OperatorOf(op), Senses(args, row, false), false))
    ensures forall i | 0 <= i < |args| && (op == "/" ==> i < 2) :: Answer(args[i], row) == Some(Senses(args, row, false)[i])
  {
    hide Answer, Combine, Compiled, FormOf, Sense, WellFormed, WellFormedAll, Height, HeightOf, Size, SizeOf, Dropped, DroppedBy, OperatorOf;
    var node := Node(op, args);
    NodeForm(op, args);
    AnswerIs(node, row);
    Accepted(node);
    Inside(node, args, row);
    forall i | 0 <= i < |args| && (op == "/" ==> i < 2)
      ensures Answer(args[i], row) == Some(Senses(args, row, false)[i])
    {
      OperandFits(args, i);
      OperandDrops(OperatorOf(op), args, i);
      AnswerOf(args[i], row);
    }
  }

  lemma NodeForm(op: string, args: seq<Json>)
    requires (op in COMPARISONS && |args| == 2) || (op in CHAINS && |args| >= 2)
    ensures FormOf(Node(op, args)) == Apply(OperatorOf(op), args)
    ensures Fits(OperatorOf(op), |args|) && (OperatorOf(op).Quotient? <==> op == "/")
  {
    hide FormOf;
    FormOfLegal(op, JList(args));
  }

  lemma OperandDrops(op: Operator, args: seq<Json>, i: nat)
    requires Fits(op, |args|) && WellFormedAll(args) && i < |args| && (op.Quotient? ==> i < 2) && DroppedBy(op, args) == 0
    ensures Dropped(args[i]) == 0
  {
    hide WellFormed, Dropped;
    OperandFits(args, i);
  }

  lemma Inside(node: Json, args: seq<Json>, row: Row)
    requires FormOf(node).Apply? && FormOf(node).args == args && WellFormed(node)
    ensures WellFormedAll(args) && Height(node) == 1 + HeightOf(args) && Size(node) == 1 + SizeOf(args)
    ensures Dropped(node) == DroppedBy(FormOf(node).op, args)
    ensures Sense(node, row, false) == Combine(FormOf(node).op, Senses(args, row, false), false)
  {
    hide FormOf, Combine;
  }

  // ----------------------------------------------------------- the operators

  predicate SameKind(v: Value, w: Value) {
    (v.Num? && w.Num?) || (v.Str? && w.Str?) || (v.Bool? && w.Bool?)
  }

  /** Numbers by size, texts in dictionary order, false before true. */
  predicate Before(v: Value, w: Value) {
    match (v, w)
    case (Num(x), Num(y)) => x < y
    case (Str(s), Str(t)) => s != t && O.StrLeq(s, t)
    case (Bool(b), Bool(c)) => !b && c
    case _ => false
  }

  /** What the comparison of two values should say. */
  predicate Matches(op: string, v: Value, w: Value) {
    && SameKind(v, w)
    && match op
       case "==" => v == w
       case "!=" => v != w
       case "<" => Before(v, w)
       case "<=" => Before(v, w) || v == w
       case ">" => Before(w, v)
       case ">=" => Before(w, v) || v == w
       case _ => false
  }

  /** A comparison matches exactly when both sides have a value and the values compare so; with a side missing it is plain false. */
  lemma ComparisonLaw(op: string, a: Json, b: Json, row: Row)
    requires op in ["==", "!=", "<", "<=", ">", ">="] && Answer(Node(op, [a, b]), row).Some?
    ensures Answer(a, row).Some? && Answer(b, row).Some?
    ensures var v, w, r := Answer(a, row).value, Answer(b, row).value, Answer(Node(op, [a, b]), row).value;
            && (r == Bool(true) <==> Matches(op, v, w))
            && (!v.Bad? && !w.Bad? && (v.Null? || w.Null? || SameKind(v, w)) ==> r == Bool(Matches(op, v, w)))
  {
    hide Answer, Senses, Matches, SameKind, Combine, OperatorOf;
    OperandsAnswer(op, [a, b], row);
    var vs := Senses([a, b], row, false);
    assert vs == [vs[0], vs[1]];
    Compares(op, vs[0], vs[1]);
  }

  lemma Compares(op: string, v: Value, w: Value)
    requires op in COMPARISONS
    ensures var r := Combine(OperatorOf(op), [v, w], false);
            && (r == Bool(true) <==> Matches(op, v, w))
            && (!v.Bad? && !w.Bad? && (v.Null? || w.Null? || SameKind(v, w)) ==> r == Bool(Matches(op, v, w)))
  {
    hide Less, Before, Holds, OperatorOf;
    LessIsBefore(v, w);
    LessIsBefore(w, v);
    if SameKind(v, w) {
      LessBothWays(v, w);
    }
    HoldsIs(op, v == w, Before(v, w));
  }

  lemma HoldsIs(op: string, equal: bool, less: bool)
    requires op in COMPARISONS
    ensures OperatorOf(op).Comparison?
    ensures Holds(OperatorOf(op).symbol, equal, less)
            <==> match op
                 case "==" => equal
                 case "!=" => !equal
                 case "<" => less
                 case "<=" => less || equal
                 case ">" => !less && !equal
                 case _ => !less
  {
  }

  lemma LessIsBefore(v: Value, w: Value)
    ensures Less(v, w).Some? <==> SameKind(v, w)
    ensures SameKind(v, w) ==> (Less(v, w).value <==> Before(v, w))
  {
  }

  lemma LessBothWays(v: Value, w: Value)
    requires SameKind(v, w)
    ensures v == w || Before(v, w) || Before(w, v)
    ensures !(Before(v, w) && Before(w, v)) && (v == w ==> !Before(v, w))
  {
    if v.Str? {
      O.StrTotal(v.s, w.s);
    }
  }

  /** `and` matches when every operand does and is false as soon as one is; `or` the other way round; else the answer is missing. */
  lemma LogicLaw(op: string, args: seq<Json>, row: Row)
    requires op in ["and", "or"] && |args| >= 2 && Answer(Node(op, args), row).Some?
    requires forall i | 0 <= i < |args| && Answer(args[i], row).Some? :: Truth(Answer(args[i], row).value)
    ensures forall i | 0 <= i < |args| :: Answer(args[i], row).Some?
    ensures var decisive := Bool(op == "or");
            Answer(Node(op, args), row)
            == if exists i | 0 <= i < |args| :: Answer(args[i], row) == Some(decisive) then Some(decisive)
               else if exists i | 0 <= i < |args| :: Answer(args[i], row) == Some(Null) then Some(Null)
               else Some(Bool(op == "and"))
  {
    hide Answer, Senses, Sense;
    OperandsAnswer(op, args, row);
    var vs := Senses(args, row, false);
    forall i | 0 <= i < |args|
      ensures Answer(args[i], row) == Some(vs[i])
    {
    }
    Logic(op, vs);
    assert (exists i | 0 <= i < |args| :: Answer(args[i], row) == Some(Bool(op == "or"))) <==> Bool(op == "or") in vs;
    assert (exists i | 0 <= i < |args| :: Answer(args[i], row) == Some(Null)) <==> Null in vs;
  }

  lemma Logic(op: string, vs: seq<Value>)
    requires op in ["and", "or"] && |vs| >= 2 && forall v | v in vs :: Truth(v)
    ensures Combine(Chain(op), vs, false) == if Bool(op == "or") in vs then Bool(op == "or") else if Null in vs then Null else Bool(op == "and")
  {
  }

  /** `not` turns a match into a non-match and back, and leaves a missing answer missing. */
  lemma NegationLaw(a: Json, list: bool, row: Row)
    requires !a.JList?
    requires var node := JObj([("not", if list then JList([a]) else a)]); Answer(node, row).Some?
    ensures Answer(a, row).Some?
    ensures var v, r := Answer(a, row).value, Answer(JObj([("not", if list then JList([a]) else a)]), row).value;
            && (r == Bool(true) <==> v == Bool(false)) && (r == Bool(false) <==> v == Bool(true)) && (r == Null <==> v == Null)
  {
    hide Answer, FormOf, Compiled;
    var node := JObj([("not", if list then JList([a]) else a)]);
    FormOfLegal("not", if list then JList([a]) else a);
    AnswerIs(node, row);
    Accepted(node);
    NegatedFits(node, a, row);
    AnswerOf(a, row);
  }

  lemma NegatedFits(node: Json, a: Json, row: Row)
    requires FormOf(node) == Negate(a) && WellFormed(node) && Height(node) <= 8 && Size(node) <= 120 && Dropped(node) == 0
    ensures WellFormed(a) && Height(a) <= 8 && Size(a) <= 120 && Dropped(a) == 0 && Sense(node, row, false) == Not(Sense(a, row, false))
  {
    hide FormOf;
  }

  /** Numbers taken together from the left. */
  function Folded(op: string, xs: seq<real>): real
    requires xs != []
  {
    if |xs| == 1 then xs[0]
    else
      var before, last := Folded(op, xs[..|xs| - 1]), xs[|xs| - 1];
      match op
      case "+" => before + last
      case "-" => before - last
      case _ => before * last
  }

  /** Sums, differences and products go from the left over all operands; with one missing there is none. */
  lemma ArithmeticLaw(op: string, args: seq<Json>, row: Row)
    requires op in ["+", "-", "*"] && |args| >= 2 && Answer(Node(op, args), row).Some?
    requires forall i | 0 <= i < |args| && Answer(args[i], row).Some? :: Numeric(Answer(args[i], row).value)
    ensures forall i | 0 <= i < |args| :: Answer(args[i], row).Some?
    ensures if exists i | 0 <= i < |args| :: Answer(args[i], row) == Some(Null) then Answer(Node(op, args), row) == Some(Null)
            else Answer(Node(op, args), row) == Some(Num(Folded(op, seq(|args|, i requires 0 <= i < |args| => NumberOf(Answer(args[i], row))))))
  {
    hide Answer, Senses, Sense;
    OperandsAnswer(op, args, row);
    var vs := Senses(args, row, false);
    var xs := seq(|args|, i requires 0 <= i < |args| => NumberOf(Answer(args[i], row)));
    forall i | 0 <= i < |args|
      ensures Answer(args[i], row) == Some(vs[i])
    {
    }
    assert (exists i | 0 <= i < |args| :: Answer(args[i], row) == Some(Null)) <==> Null in vs;
    if Null !in vs {
      TotalIsFolded(op, vs, xs);
    }
  }

  function NumberOf(answer: Option<Value>): real {
    if answer.Some? && answer.value.Num? then answer.value.x else 0.0
  }

  lemma {:induction false} TotalIsFolded(op: string, vs: seq<Value>, xs: seq<real>)
    requires op in ["+", "-", "*"] && vs != [] && |xs| == |vs| && forall i | 0 <= i < |vs| :: vs[i] == Num(xs[i])
    ensures Total(op, vs) == Num(Folded(op, xs))
  {
    if |vs| > 1 {
      var n := |vs| - 1;
      TotalIsFolded(op, vs[..n], xs[..n]);
      assert vs[1..][..n - 1] == vs[..n][1..];
    } else {
      assert vs == [Num(xs[0])];
      OneTotal(op, xs[0]);
    }
  }

  lemma OneTotal(op: string, x: real)
    requires op in ["+", "-", "*"]
    ensures Total(op, [Num(x)]) == Num(x)
  {
    assert [Num(x)][..0] == [] && [Num(x)][1..] == [];
    assert Sum([]) == 0.0 && Product([]) == 1.0;
    assert Sum([Num(x)]) == Sum([]) + x && Product([Num(x)]) == Product([]) * x;
  }

  /** The quotient of two numbers; none when a side is missing or the divisor is zero. */
  lemma QuotientLaw(a: Json, b: Json, row: Row)
    requires Answer(Node("/", [a, b]), row).Some?
    ensures Answer(a, row).Some? && Answer(b, row).Some?
    ensures var v, w, r := Answer(a, row).value, Answer(b, row).value, Answer(Node("/", [a, b]), row).value;
            && (v.Num? && w.Num? && w.x != 0.0 ==> r == Num(v.x / w.x))
            && (Numeric(v) && Numeric(w) && (v.Null? || w.Null? || w.x == 0.0) ==> r == Null)
  {
    hide Answer, Senses;
    OperandsAnswer("/", [a, b], row);
    var vs := Senses([a, b], row, false);
    assert vs[..2] == [vs[0], vs[1]];
    TwoOperands(vs[0], vs[1]);
  }

  /** A metric's answer is its column, and no other name has one. */
  lemma MetricLaw(metric: string, row: Row)
    ensures Answer(Var(metric), row) == if metric in METRICS then Some(row(METRICS[metric])) else None
  {
    hide Answer, FormOf, Compiled;
    var node := Var(metric);
    FormOfLegal("var", JStr(metric));
    SimpleNode(node, row);
    AnswerIs(node, row);
  }

  /** A literal's answer is its value. */
  lemma LiteralLaw(literal: Json, row: Row)
    requires !literal.JList? && !literal.JObj?
    ensures Answer(literal, row) == Some(match literal
                                         case JBool(b) => Bool(b)
                                         case JNum(x) => Num(x)
                                         case JStr(s) => Str(s)
                                         case _ => Null)
  {
    hide Answer, Compiled;
    SimpleNode(literal, row);
    AnswerIs(literal, row);
  }

  lemma SimpleNode(node: Json, row: Row)
    requires !FormOf(node).Negate? && !FormOf(node).Apply?
    ensures Compiled(node).Ok? <==> !FormOf(node).Malformed?
    ensures Dropped(node) == 0
    ensures FormOf(node).Leaf? ==> Sense(node, row, false) == FormOf(node).v
    ensures FormOf(node).Metric? ==> Sense(node, row, false) == row(FormOf(node).column)
  {
    hide FormOf;
  }

  // --------------------------------------------------- which are answered

  /** Only metrics and operators. */
  predicate NoLiterals(node: Json) {
    && node.JObj? && |node.fields| == 1
    && var (op, arg) := node.fields[0];
    if op == "var" then true
    else if !arg.JList? then op == "not" && NoLiterals(arg)
    else if op == "not" then arg.items != [] && NoLiterals(arg.items[0])
    else forall i | 0 <= i < |arg.items| :: NoLiterals(arg.items[i])
  }

  /** Every quotient has its literals in its first two operands. */
  predicate Keeps(node: Json) {
    node.JObj? && |node.fields| == 1 ==>
      var (op, arg) := node.fields[0];
      if op == "var" then true
      else if !arg.JList? then op == "not" ==> Keeps(arg)
      else if op == "not" then arg.items != [] ==> Keeps(arg.items[0])
      else
        && (forall i | 0 <= i < |arg.items| && (op == "/" ==> i < 2) :: Keeps(arg.items[i]))
        && (op == "/" ==> forall i | 2 <= i < |arg.items| :: NoLiterals(arg.items[i]))
  }

  lemma {:induction false} LiteralsAreParams(node: Json)
    requires WellFormed(node)
    ensures NoLiterals(node) <==> Params(node) == []
    decreases node, 1
  {
    hide FormOf;
    if node.JObj? && |node.fields| == 1 {
      var (op, arg) := node.fields[0];
      assert node == JObj([(op, arg)]);
      FormOfLegal(op, arg);
      if op == "not" {
        if !arg.JList? {
          LiteralsAreParams(arg);
        } else if arg.items != [] {
          LiteralsAreParams(arg.items[0]);
        }
      } else if op != "var" && arg.JList? {
        LiteralsOf(arg.items);
      }
    } else {
      OtherForms(node);
    }
  }

  lemma {:induction false} LiteralsOf(items: seq<Json>)
    requires WellFormedAll(items)
    ensures (forall i | 0 <= i < |items| :: NoLiterals(items[i])) <==> ParamsOf(items) == []
    decreases items, 0
  {
    hide NoLiterals, WellFormed, Params;
    if items != [] {
      var n := |items| - 1;
      LiteralsOf(items[..n]);
      LiteralsAreParams(items[n]);
      assert forall i | 0 <= i < n :: items[..n][i] == items[i];
    }
  }

  lemma {:induction false} KeepsIs(node: Json)
    requires WellFormed(node)
    ensures Keeps(node) <==> Dropped(node) == 0
    decreases node, 1
  {
    hide FormOf, DroppedBy, OperatorOf;
    if node.JObj? && |node.fields| == 1 {
      var (op, arg) := node.fields[0];
      assert node == JObj([(op, arg)]);
      FormOfLegal(op, arg);
      if op == "not" {
        if !arg.JList? {
          KeepsIs(arg);
        } else if arg.items != [] {
          KeepsIs(arg.items[0]);
        }
      } else if op != "var" && arg.JList? {
        NodeForm(op, arg.items);
        KeepsBy(op, arg.items);
      }
    } else {
      OtherForms(node);
    }
  }

  lemma {:induction false} KeepsBy(op: string, items: seq<Json>)
    requires Fits(OperatorOf(op), |items|) && (OperatorOf(op).Quotient? <==> op == "/") && WellFormedAll(items)
    ensures DroppedBy(OperatorOf(op), items) == 0
            <==> (forall i | 0 <= i < |items| && (op == "/" ==> i < 2) :: Keeps(items[i]))
                 && (op == "/" ==> forall i | 2 <= i < |items| :: NoLiterals(items[i]))
    decreases items, 1
  {
    hide Keeps, NoLiterals, Dropped, WellFormed, OperatorOf;
    if op == "/" {
      WellFormedAt(items, 0);
      WellFormedAt(items, 1);
      KeepsIs(items[0]);
      KeepsIs(items[1]);
      WellFormedRest(items);
      LiteralsOf(items[2..]);
      assert forall i | 2 <= i < |items| :: items[2..][i - 2] == items[i];
      assert forall i | 0 <= i < |items| - 2 :: items[2..][i] == items[i + 2];
    } else {
      KeepsAll(items);
    }
  }

  lemma {:induction false} WellFormedRest(items: seq<Json>)
    requires WellFormedAll(items) && |items| >= 2
    ensures WellFormedAll(items[2..])
  {
    hide WellFormed;
    if |items| > 2 {
      var front, rest := items[..|items| - 1], items[2..];
      WellFormedRest(front);
      assert rest[..|rest| - 1] == front[2..];
    }
  }

  lemma {:induction false} KeepsAll(items: seq<Json>)
    requires WellFormedAll(items)
    ensures DroppedOf(items) == 0 <==> forall i | 0 <= i < |items| :: Keeps(items[i])
    decreases items, 0
  {
    hide Keeps, WellFormed, Dropped;
    if items != [] {
      var n := |items| - 1;
      KeepsAll(items[..n]);
      KeepsIs(items[n]);
      assert forall i | 0 <= i < n :: items[..n][i] == items[i];
    }
  }

  /** A condition is answered on every row exactly when it is accepted and no quotient has a literal beyond its second operand. */
  lemma AnsweredExactlyWhen(condition: Json, row: Row)
    ensures Answer(condition, row).Some? <==> Legal(condition) && Within(condition, 8) && Nodes(condition) <= 120 && Keeps(condition)
  {
    hide Answer, Legal, Within, Nodes, Keeps, Compiled, WellFormed, Dropped, Sense;
    AnswerIs(condition, row);
    AcceptedExactlyWhen(condition);
    LegalIs(condition);
    if WellFormed(condition) {
      KeepsIs(condition);
    }
  }

  // --------------------------------------------------------- a shipped rule

  lemma NumberComparison(op: string, metric: string, x: real, row: Row)
    requires op in ["==", "!=", "<", "<=", ">", ">="] && metric in METRICS && row(METRICS[metric]).Num?
    requires Answer(Node(op, [Var(metric), JNum(x)]), row).Some?
    ensures Answer(Node(op, [Var(metric), JNum(x)]), row) == Some(Bool(Matches(op, row(METRICS[metric]), Num(x))))
  {
    hide Answer, Matches, Var;
    ComparisonLaw(op, Var(metric), JNum(x), row);
    MetricLaw(metric, row);
    LiteralLaw(JNum(x), row);
  }

  lemma ComparisonAnswered(op: string, metric: string, x: real, row: Row)
    requires op in ["==", "!=", "<", "<=", ">", ">="] && metric in METRICS
    ensures var node := Node(op, [Var(metric), JNum(x)]);
            Legal(node) && Within(node, 1) && Nodes(node) == 3 && Keeps(node) && Answer(node, row).Some?
  {
    hide Answer;
    var a, b := Var(metric), JNum(x);
    var node := Node(op, [a, b]);
    assert Legal(a) && Legal(b) && Within(a, 0) && Within(b, 0) && Keeps(a) && Keeps(b) && Nodes(a) == Nodes(b) == 1;
    assert [a, b][1..] == [b] && [b][1..] == [];
    assert NodesOf([b]) == 1 && NodesOf([a, b]) == 2;
    assert Within(node, 1);
    Deeper(node, 1, 8);
    AnsweredExactlyWhen(node, row);
  }

  lemma {:induction false} Deeper(node: Json, depth: int, more: int)
    requires Legal(node) && Within(node, depth) && depth <= more
    ensures Within(node, more)
  {
    hide Legal, Within, WellFormed, Height;
    LegalIs(node);
    WithinIs(node, depth);
    WithinIs(node, more);
  }

  /** The starter rule against waste matches exactly when a keyword has the clicks and the cost and no orders. */
  lemma WasteRule(row: Row)
    requires row("m.clicks").Num? && row("m.attributed_orders_7d").Num? && row("m.cost").Num?
    ensures var rule := Node("and", [Node(">=", [Var("clicks"), JNum(30.0)]), Node("==", [Var("attributed_orders"), JNum(0.0)]),
                                     Node(">=", [Var("cost"), JNum(10.0)])]);
            Answer(rule, row) == Some(Bool(row("m.clicks").x >= 30.0 && row("m.attributed_orders_7d").x == 0.0 && row("m.cost").x >= 10.0))
  {
    hide Answer, Legal, Within, Nodes, Keeps, Var, Node, Matches;
    var clicks, orders, cost := Node(">=", [Var("clicks"), JNum(30.0)]), Node("==", [Var("attributed_orders"), JNum(0.0)]),
                                Node(">=", [Var("cost"), JNum(10.0)]);
    ComparisonAnswered(">=", "clicks", 30.0, row);
    ComparisonAnswered("==", "attributed_orders", 0.0, row);
    ComparisonAnswered(">=", "cost", 10.0, row);
    NumberComparison(">=", "clicks", 30.0, row);
    NumberComparison("==", "attributed_orders", 0.0, row);
    NumberComparison(">=", "cost", 10.0, row);
    NumbersMatch(row("m.clicks").x, 30.0);
    NumbersMatch(row("m.attributed_orders_7d").x, 0.0);
    NumbersMatch(row("m.cost").x, 10.0);
    ThreeAnswered(clicks, orders, cost, row);
    AllThree(clicks, orders, cost, row);
  }

  lemma NumbersMatch(x: real, y: real)
    ensures Matches(">=", Num(x), Num(y)) <==> x >= y
    ensures Matches("==", Num(x), Num(y)) <==> x == y
  {
  }

  predicate YesOrNo(answer: Option<Value>) {
    answer == Some(Bool(true)) || answer == Some(Bool(false))
  }

  lemma AllThree(a: Json, b: Json, c: Json, row: Row)
    requires Answer(Node("and", [a, b, c]), row).Some?
    requires YesOrNo(Answer(a, row)) && YesOrNo(Answer(b, row)) && YesOrNo(Answer(c, row))
    ensures Answer(Node("and", [a, b, c]), row)
         == Some(Bool(Answer(a, row) == Some(Bool(true)) && Answer(b, row) == Some(Bool(true)) && Answer(c, row) == Some(Bool(true))))
  {
    hide Answer, Node;
    var args := [a, b, c];
    assert args[0] == a && args[1] == b && args[2] == c;
    LogicLaw("and", args, row);
  }

  lemma ThreeAnswered(a: Json, b: Json, c: Json, row: Row)
    requires Legal(a) && Legal(b) && Legal(c) && Within(a, 1) && Within(b, 1) && Within(c, 1)
    requires Nodes(a) == Nodes(b) == Nodes(c) == 3 && Keeps(a) && Keeps(b) && Keeps(c)
    ensures Answer(Node("and", [a, b, c]), row).Some?
  {
    hide Answer;
    var node := Node("and", [a, b, c]);
    assert [a, b, c][1..] == [b, c] && [b, c][1..] == [c] && [c][1..] == [];
    assert NodesOf([c]) == 3 && NodesOf([b, c]) == 6 && NodesOf([a, b, c]) == 9;
    assert Legal(node) && Within(node, 2) && Keeps(node);
    Deeper(node, 2, 8);
    AnsweredExactlyWhen(node, row);
  }
}
