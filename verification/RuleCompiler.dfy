/**
 The rule compiler: a JSON condition tree becomes a parenthesised SQL expression
 and a positional parameter list, within a depth and a node budget.
 */
module RuleCompiler {
  import opened Wrappers
  import opened Sql
  import opened Numbers
  import Strings = Texts

  const MAX_DEPTH := 8
  const MAX_NODES := 120

  datatype Json =
    | JNull | JBool(b: bool) | JNum(x: real) | JStr(s: string)
    | JList(items: seq<Json>)
    | JObj(fields: seq<(string, Json)>)

  datatype RuleError =
    | TooDeep | TooManyNodes | UnsupportedNode | NotOneOperator | VarNeedsName
    | UnknownMetric | OperatorNotAllowed | NegationOfNothing | NeedsTwoOperands
    | TakesExactlyTwo | EmptyCondition

  /** The metrics a rule may mention, and the columns they stand for. */
  function SqlColumn(metric: string): Option<string> {
    match metric
    case "acos" => Some("m.acos")
    case "roas" => Some("m.roas")
    case "ctr" => Some("m.ctr")
    case "cvr" => Some("m.cvr")
    case "cpc" => Some("m.cpc")
    case "tacos" => Some("m.tacos")
    case "clicks" => Some("m.clicks")
    case "impressions" => Some("m.impressions")
    case "cost" => Some("m.cost")
    case "attributed_sales" => Some("m.attributed_sales_7d")
    case "attributed_orders" => Some("m.attributed_orders_7d")
    case "attributed_units" => Some("m.attributed_units_7d")
    case "bid" => Some("m.bid")
    case "budget" => Some("m.budget_amount")
    case "budget_utilisation" => Some("m.budget_utilisation")
    case "days_capped" => Some("m.days_capped")
    case "top_of_search_is" => Some("m.top_of_search_impression_share")
    case "account_cvr" => Some("m.account_cvr")
    case "account_ctr" => Some("m.account_ctr")
    case "break_even_acos" => Some("e.break_even_acos")
    case "contribution_margin_pct" => Some("e.contribution_margin_pct")
    case "is_already_negative" => Some("m.is_already_negative")
    case "exists_as_exact" => Some("m.exists_as_exact")
    case _ => None
  }

  function SqlComparison(op: string): Option<string> {
    match op
    case "==" => Some("=")
    case "!=" => Some("<>")
    case _ => if op in ["<", "<=", ">", ">="] then Some(op) else None
  }

  predicate Logical(op: string) {
    op in ["and", "or"]
  }

  predicate Additive(op: string) {
    op in ["+", "-", "*"]
  }

  datatype Operator = Chain(symbol: string) | Comparison(symbol: string) | Quotient

  /** What one node asks for, once its own shape has been checked. */
  datatype Form =
    | Leaf(v: Value)
    | Metric(column: string)
    | Negate(inner: Json)
    | Apply(op: Operator, args: seq<Json>)
    | Malformed(error: RuleError)

  predicate Fits(op: Operator, operands: nat) {
    match op
    case Chain(s) => (Logical(s) || Additive(s)) && operands >= 2
    case Comparison(s) => s in ["<", "<=", ">", ">=", "=", "<>"] && operands == 2
    case Quotient => operands >= 2
  }

  function FormOf(node: Json): (f: Form)
    ensures f.Negate? ==> (node decreases to f.inner)
    ensures f.Apply? ==> Fits(f.op, |f.args|) && (node decreases to f.args)
  {
    match node
    case JNull => Leaf(Null)
    case JBool(b) => Leaf(Bool(b))
    case JNum(x) => Leaf(Num(x))
    case JStr(s) => Leaf(Str(s))
    case JList(_) => Malformed(UnsupportedNode)
    case JObj(fields) =>
      if |fields| != 1 then Malformed(NotOneOperator)
      else
        var (op, arg) := fields[0];
        if op == "var" then
          if !arg.JStr? then Malformed(VarNeedsName)
          else
            match SqlColumn(arg.s)
            case Some(column) => Metric(column)
            case None => Malformed(UnknownMetric)
        else if !(Logical(op) || Additive(op) || op == "/" || SqlComparison(op).Some? || op == "not") then
          Malformed(OperatorNotAllowed)
        else if op == "not" then
          if !arg.JList? then Negate(arg)
          else if arg.items == [] then Malformed(NegationOfNothing)
          else Negate(arg.items[0])
        else if !arg.JList? || |arg.items| < 2 then Malformed(NeedsTwoOperands)
        else if SqlComparison(op).Some? then
          if |arg.items| != 2 then Malformed(TakesExactlyTwo)
          else Apply(Comparison(SqlComparison(op).value), arg.items)
        else if op == "/" then Apply(Quotient, arg.items)
        else Apply(Chain(op), arg.items)
  }

  // ------------------------------------------- what the compiler computes

  function Render(op: Operator, parts: seq<string>): string
    requires |parts| >= 2
  {
    match op
    case Chain(s) => "(" + Strings.Join(" " + s + " ", parts) + ")"
    case Comparison(s) => "coalesce((" + parts[0] + " " + s + " " + parts[1] + "), false)"
    case Quotient => "(" + parts[0] + " / nullif(" + parts[1] + ", 0))"
  }

  function Text(node: Json): string
    decreases node, 1
  {
    match FormOf(node)
    case Leaf(_) => "%s"
    case Metric(column) => column
    case Negate(inner) => "(not " + Text(inner) + ")"
    case Apply(op, args) => Render(op, Texts(args))
    case Malformed(_) => ""
  }

  function Texts(args: seq<Json>): (ts: seq<string>)
    ensures |ts| == |args|
    ensures forall i | 0 <= i < |args| :: ts[i] == Text(args[i])
    decreases args, 0
  {
    if args == [] then [] else Texts(args[..|args| - 1]) + [Text(args[|args| - 1])]
  }

  function Params(node: Json): seq<Value>
    decreases node, 1
  {
    match FormOf(node)
    case Leaf(v) => [v]
    case Metric(_) => []
    case Negate(inner) => Params(inner)
    case Apply(_, args) => ParamsOf(args)
    case Malformed(_) => []
  }

  function ParamsOf(args: seq<Json>): seq<Value>
    decreases args, 0
  {
    if args == [] then [] else ParamsOf(args[..|args| - 1]) + Params(args[|args| - 1])
  }

  /** Nodes visited: every operand counts, a metric reference counts once. */
  function Size(node: Json): (n: nat)
    ensures n >= 1
    decreases node, 1
  {
    match FormOf(node)
    case Negate(inner) => 1 + Size(inner)
    case Apply(_, args) => 1 + SizeOf(args)
    case _ => 1
  }

  function SizeOf(args: seq<Json>): nat
    decreases args, 0
  {
    if args == [] then 0 else SizeOf(args[..|args| - 1]) + Size(args[|args| - 1])
  }

  function Height(node: Json): nat
    decreases node, 1
  {
    match FormOf(node)
    case Negate(inner) => 1 + Height(inner)
    case Apply(_, args) => 1 + HeightOf(args)
    case _ => 0
  }

  function HeightOf(args: seq<Json>): nat
    decreases args, 0
  {
    if args == [] then 0 else Larger(HeightOf(args[..|args| - 1]), Height(args[|args| - 1]))
  }

  predicate WellFormed(node: Json)
    decreases node, 1
  {
    match FormOf(node)
    case Leaf(_) => true
    case Metric(_) => true
    case Negate(inner) => WellFormed(inner)
    case Apply(_, args) => WellFormedAll(args)
    case Malformed(_) => false
  }

  predicate WellFormedAll(args: seq<Json>)
    decreases args, 0
  {
    args == [] || (WellFormedAll(args[..|args| - 1]) && WellFormed(args[|args| - 1]))
  }

  /** The error raised first, in visiting order, by a compiler that has already
      counted `nodes` nodes and enters `node` at `depth`. */
  function FirstError(node: Json, depth: nat, nodes: nat): Option<RuleError>
    decreases node, 1
  {
    if depth > MAX_DEPTH then Some(TooDeep)
    else if nodes + 1 > MAX_NODES then Some(TooManyNodes)
    else
      match FormOf(node)
      case Leaf(_) => None
      case Metric(_) => None
      case Malformed(e) => Some(e)
      case Negate(inner) => FirstError(inner, depth + 1, nodes + 1)
      case Apply(_, args) => FirstErrorOf(args, depth + 1, nodes + 1)
  }

  function FirstErrorOf(args: seq<Json>, depth: nat, nodes: nat): Option<RuleError>
    decreases args, 0
  {
    if args == [] then None
    else
      var before := args[..|args| - 1];
      match FirstErrorOf(before, depth, nodes)
      case Some(e) => Some(e)
      case None => FirstError(args[|args| - 1], depth, nodes + SizeOf(before))
  }

  function Verdict(node: Json, depth: nat, nodes: nat): Result<string, RuleError> {
    match FirstError(node, depth, nodes)
    case Some(e) => Err(e)
    case None => Ok(Text(node))
  }

  function VerdictOf(args: seq<Json>, depth: nat, nodes: nat): Result<seq<string>, RuleError> {
    match FirstErrorOf(args, depth, nodes)
    case Some(e) => Err(e)
    case None => Ok(Texts(args))
  }

  // --------------------------------------------------------- the compiler

  class Compiler {
    var params: seq<Value>
    var nodes: nat

    constructor ()
      ensures params == [] && nodes == 0
    {
      params, nodes := [], 0;
    }

    method Param(value: Value) returns (s: string)
      modifies this`params
      ensures s == "%s" && params == old(params) + [value]
    {
      params := params + [value];
      s := "%s";
    }

    method Compile(node: Json, depth: nat) returns (r: Result<string, RuleError>)
      modifies this
      ensures r == Verdict(node, depth, old(nodes))
      ensures r.Ok? ==> params == old(params) + Params(node) && nodes == old(nodes) + Size(node)
      decreases node, 1
    {
      nodes := nodes + 1;
      if depth > MAX_DEPTH {
        return Err(TooDeep);
      }
      if nodes > MAX_NODES {
        return Err(TooManyNodes);
      }
      match FormOf(node) {
        case Leaf(v) =>
          var s := Param(v);
          r := Ok(s);
        case Metric(column) =>
          r := Ok(column);
        case Malformed(e) =>
          r := Err(e);
        case Negate(inner) =>
          var c := Compile(inner, depth + 1);
          r := if c.Ok? then Ok("(not " + c.value + ")") else c;
        case Apply(op, args) =>
          var c := CompileAll(args, depth + 1);
          r := if c.Ok? then Ok(Render(op, c.value)) else Err(c.error);
      }
    }

    /** Compiles the operands in order, stopping at the first error. */
    method CompileAll(args: seq<Json>, depth: nat) returns (r: Result<seq<string>, RuleError>)
      modifies this
      ensures r == VerdictOf(args, depth, old(nodes))
      ensures r.Ok? ==> params == old(params) + ParamsOf(args) && nodes == old(nodes) + SizeOf(args)
      decreases args, 0
    {
      hide FormOf, Text, Params, Size, FirstError;
      var parts: seq<string> := [];
      assert args[..0] == [];
      for i := 0 to |args|
        invariant VerdictOf(args[..i], depth, old(nodes)) == Ok(parts)
        invariant params == old(params) + ParamsOf(args[..i])
        invariant nodes == old(nodes) + SizeOf(args[..i])
      {
        OneMore(args, i, depth, old(nodes));
        Associative(old(params), ParamsOf(args[..i]), Params(args[i]));
        var c := Compile(args[i], depth);
        if c.Err? {
          ErrorInPrefix(args, i + 1, depth, old(nodes));
          assert VerdictOf(args, depth, old(nodes)) == Err(c.error);
          return Err(c.error);
        }
        parts := parts + [c.value];
      }
      assert args[..|args|] == args;
      r := Ok(parts);
    }
  }

  lemma Associative<T>(a: seq<T>, b: seq<T>, c: seq<T>)
    ensures (a + b) + c == a + (b + c)
  {
  }

  /** What one more operand adds. */
  lemma OneMore(args: seq<Json>, i: nat, depth: nat, nodes: nat)
    requires i < |args|
    ensures Texts(args[..i + 1]) == Texts(args[..i]) + [Text(args[i])]
    ensures ParamsOf(args[..i + 1]) == ParamsOf(args[..i]) + Params(args[i])
    ensures SizeOf(args[..i + 1]) == SizeOf(args[..i]) + Size(args[i])
    ensures FirstErrorOf(args[..i], depth, nodes) == None ==>
              FirstErrorOf(args[..i + 1], depth, nodes) == FirstError(args[i], depth, nodes + SizeOf(args[..i]))
  {
    hide FormOf, Text, Params, Size, FirstError;
    assert args[..i + 1][..i] == args[..i];
  }

  /** An error among the first operands is the error of the whole list. */
  lemma {:induction false} ErrorInPrefix(args: seq<Json>, k: nat, depth: nat, nodes: nat)
    requires k <= |args| && FirstErrorOf(args[..k], depth, nodes).Some?
    ensures FirstErrorOf(args, depth, nodes) == FirstErrorOf(args[..k], depth, nodes)
  {
    if k < |args| {
      var before := args[..|args| - 1];
      assert before[..k] == args[..k];
      ErrorInPrefix(before, k, depth, nodes);
    } else {
      assert args[..k] == args;
    }
  }

  function Compiled(condition: Json): Result<(string, seq<Value>), RuleError> {
    var v := Verdict(condition, 0, 0);
    if v.Ok? then Ok((v.value, Params(condition))) else Err(v.error)
  }

  method CompileCondition(condition: Json) returns (r: Result<(string, seq<Value>), RuleError>)
    ensures r == if !condition.JObj? || condition.fields == [] then Err(EmptyCondition) else Compiled(condition)
  {
    if !condition.JObj? || condition.fields == [] {
      return Err(EmptyCondition);
    }
    var c := new Compiler();
    var sql := c.Compile(condition, 0);
    assert [] + Params(condition) == Params(condition);
    r := if sql.Ok? then Ok((sql.value, c.params)) else Err(sql.error);
  }
}
