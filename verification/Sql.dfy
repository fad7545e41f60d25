/**
 A small, ordinary SQL expression reader: characters to tokens, positional
 parameters bound to placeholders from left to right, and a precedence parser,
 followed by evaluation under SQL's three-valued logic. Nothing here knows about
 the rule compiler: it is the reader the compiler's text is meant for.
 */
module Sql {
  import opened Wrappers
  import O = Ordering

  // --------------------------------------------------------------- values

  /** `Bad` is the value of an expression whose evaluation is a type error. */
  datatype Value = Null | Bool(b: bool) | Num(x: real) | Str(s: string) | Bad

  function Not(v: Value): Value {
    match v
    case Bool(b) => Bool(!b)
    case Null => Null
    case _ => Bad
  }

  predicate Truth(v: Value) {
    v.Null? || v.Bool?
  }

  function And(v: Value, w: Value): Value {
    if !Truth(v) || !Truth(w) then Bad
    else if v == Bool(false) || w == Bool(false) then Bool(false)
    else if v.Null? || w.Null? then Null
    else Bool(true)
  }

  function Or(v: Value, w: Value): Value {
    if !Truth(v) || !Truth(w) then Bad
    else if v == Bool(true) || w == Bool(true) then Bool(true)
    else if v.Null? || w.Null? then Null
    else Bool(false)
  }

  predicate Numeric(v: Value) {
    v.Null? || v.Num?
  }

  /** `+ - * /` on numbers; NULL is contagious, and so is a type error. */
  function Arith(op: string, v: Value, w: Value): Value {
    if !Numeric(v) || !Numeric(w) then Bad
    else if v.Null? || w.Null? then Null
    else if op == "+" then Num(v.x + w.x)
    else if op == "-" then Num(v.x - w.x)
    else if op == "*" then Num(v.x * w.x)
    else if op == "/" && w.x != 0.0 then Num(v.x / w.x)
    else Bad
  }

  /** Whether two values of one kind are in order; `None` when the kinds differ. */
  function Less(v: Value, w: Value): Option<bool> {
    match (v, w)
    case (Num(x), Num(y)) => Some(x < y)
    case (Str(s), Str(t)) => Some(s != t && O.StrLeq(s, t))
    case (Bool(b), Bool(c)) => Some(!b && c)
    case _ => None
  }

  predicate Holds(op: string, equal: bool, less: bool) {
    match op
    case "=" => equal
    case "<>" => !equal
    case "<" => less
    case "<=" => less || equal
    case ">" => !less && !equal
    case ">=" => !less
    case _ => false
  }

  /** A comparison is NULL as soon as one side is. */
  function Compare(op: string, v: Value, w: Value): Value {
    if v.Bad? || w.Bad? then Bad
    else if v.Null? || w.Null? then Null
    else
      match Less(v, w)
      case None => Bad
      case Some(less) => Bool(Holds(op, v == w, less))
  }

  function NullIf(v: Value, w: Value): Value {
    var same := Compare("=", v, w);
    if same.Bad? then Bad else if same == Bool(true) then Null else v
  }

  function Coalesce(v: Value, w: Value): Value {
    if v.Null? then w else v
  }

  // --------------------------------------------------------------- tokens

  datatype Token = LParen | RParen | Comma | Placeholder | Word(w: string) | Op(op: string) | Bound(v: Value)

  predicate WordChar(c: char) {
    'a' <= c <= 'z' || '0' <= c <= '9' || c == '_' || c == '.'
  }

  predicate OpChar(c: char) {
    c in "<>=+-*/"
  }

  predicate IsWord(s: string) {
    s != "" && forall i | 0 <= i < |s| :: WordChar(s[i])
  }

  predicate IsOp(s: string) {
    s != "" && forall i | 0 <= i < |s| :: OpChar(s[i])
  }

  /** Length of the longest prefix of word characters. */
  function WordRun(s: string): (n: nat)
    ensures n <= |s|
  {
    if s != "" && WordChar(s[0]) then 1 + WordRun(s[1..]) else 0
  }

  function OpRun(s: string): (n: nat)
    ensures n <= |s|
  {
    if s != "" && OpChar(s[0]) then 1 + OpRun(s[1..]) else 0
  }

  function Prepend(t: Token, ts: Option<seq<Token>>): Option<seq<Token>> {
    match ts
    case None => None
    case Some(rest) => Some([t] + rest)
  }

  /** Longest-match lexing; `None` for a character no token starts with. */
  function Lex(s: string): Option<seq<Token>>
    decreases |s|
  {
    if s == "" then Some([])
    else if s[0] == ' ' then Lex(s[1..])
    else if s[0] == '(' then Prepend(LParen, Lex(s[1..]))
    else if s[0] == ')' then Prepend(RParen, Lex(s[1..]))
    else if s[0] == ',' then Prepend(Comma, Lex(s[1..]))
    else if s[0] == '%' then
      if |s| > 1 && s[1] == 's' then Prepend(Placeholder, Lex(s[2..])) else None
    else if WordChar(s[0]) then
      var n := WordRun(s);
      Prepend(Word(s[..n]), Lex(s[n..]))
    else if OpChar(s[0]) then
      var n := OpRun(s);
      Prepend(Op(s[..n]), Lex(s[n..]))
    else None
  }

  function Placeholders(ts: seq<Token>): nat {
    if ts == [] then 0 else (if ts[0].Placeholder? then 1 else 0) + Placeholders(ts[1..])
  }

  /** Positional binding: the k-th placeholder takes the k-th parameter, and none
      may be left over on either side. */
  function Bind(ts: seq<Token>, params: seq<Value>): Option<seq<Token>> {
    if ts == [] then (if params == [] then Some([]) else None)
    else if ts[0].Placeholder? then
      if params == [] then None else Prepend(Bound(params[0]), Bind(ts[1..], params[1..]))
    else Prepend(ts[0], Bind(ts[1..], params))
  }

  // -------------------------------------------------------------- parsing

  datatype Expr =
    | Const(v: Value)
    | Column(name: string)
    | Negation(e: Expr)
    | Binary(op: string, l: Expr, r: Expr)
    | Call(fn: string, args: seq<Expr>)

  type Parsed<T> = Option<(T, seq<Token>)>

  const NOT_LEVEL := 3

  /** Binding strength of an infix operator; 0 when the token is not one. */
  function Level(t: Token): nat {
    match t
    case Word(w) => if w == "or" then 1 else if w == "and" then 2 else 0
    case Op(o) =>
      if o in ["=", "<>", "<", "<=", ">", ">="] then 4
      else if o in ["+", "-"] then 5
      else if o in ["*", "/"] then 6
      else 0
    case _ => 0
  }

  function Infix(t: Token): string
    requires Level(t) > 0
  {
    if t.Word? then t.w else t.op
  }

  predicate Reserved(w: string) {
    w in ["and", "or", "not"]
  }

  function ParsePrimary(ts: seq<Token>): (p: Parsed<Expr>)
    ensures p.Some? ==> |p.value.1| < |ts|
    decreases |ts|, 0
  {
    if ts == [] then None
    else match ts[0]
      case Bound(v) => Some((Const(v), ts[1..]))
      case LParen =>
        (match ParseExpr(ts[1..], 1)
         case Some((e, rest)) => if rest != [] && rest[0].RParen? then Some((e, rest[1..])) else None
         case None => None)
      case Word(w) =>
        if Reserved(w) then None
        else if |ts| > 1 && ts[1].LParen? then
          match ParseArgs(ts[2..])
          case Some((args, rest)) => Some((Call(w, args), rest))
          case None => None
        else if w == "false" then Some((Const(Bool(false)), ts[1..]))
        else if w == "0" then Some((Const(Num(0.0)), ts[1..]))
        else Some((Column(w), ts[1..]))
      case _ => None
  }

  /** The arguments of a call up to and including its closing parenthesis. */
  function ParseArgs(ts: seq<Token>): (p: Parsed<seq<Expr>>)
    ensures p.Some? ==> |p.value.1| < |ts|
    decreases |ts|, 3
  {
    match ParseExpr(ts, 1)
    case None => None
    case Some((e, rest)) =>
      if rest != [] && rest[0].RParen? then Some(([e], rest[1..]))
      else if rest != [] && rest[0].Comma? then
        match ParseArgs(rest[1..])
        case None => None
        case Some((es, rest')) => Some(([e] + es, rest'))
      else None
  }

  function ParseUnary(ts: seq<Token>): (p: Parsed<Expr>)
    ensures p.Some? ==> |p.value.1| < |ts|
    decreases |ts|, 1
  {
    if ts != [] && ts[0] == Word("not") then
      match ParseExpr(ts[1..], NOT_LEVEL)
      case Some((e, rest)) => Some((Negation(e), rest))
      case None => None
    else ParsePrimary(ts)
  }

  /** Reads an expression whose infix operators all have at least this level. */
  function ParseExpr(ts: seq<Token>, level: nat): (p: Parsed<Expr>)
    ensures p.Some? ==> |p.value.1| < |ts|
    decreases |ts|, 2
  {
    match ParseUnary(ts)
    case Some((e, rest)) => ParseTail(e, rest, level)
    case None => None
  }

  function ParseTail(left: Expr, ts: seq<Token>, level: nat): (p: Parsed<Expr>)
    ensures p.Some? ==> |p.value.1| <= |ts|
    decreases |ts|, 3
  {
    if ts == [] || Level(ts[0]) == 0 || Level(ts[0]) < level then Some((left, ts))
    else
      match ParseExpr(ts[1..], Level(ts[0]) + 1)
      case Some((right, rest)) => ParseTail(Binary(Infix(ts[0]), left, right), rest, level)
      case None => None
  }

  /** The whole reader: `None` unless the text is one expression whose
      placeholders and parameters match one for one. */
  function Read(text: string, params: seq<Value>): Option<Expr> {
    match Lex(text)
    case None => None
    case Some(ts) =>
      match Bind(ts, params)
      case None => None
      case Some(bound) =>
        match ParseExpr(bound, 1)
        case Some((e, rest)) => if rest == [] then Some(e) else None
        case None => None
  }

  // ----------------------------------------------------------- evaluation

  type Row = string -> Value

  function Eval(e: Expr, row: Row): Value {
    match e
    case Const(v) => v
    case Column(name) => row(name)
    case Negation(x) => Not(Eval(x, row))
    case Binary(op, l, r) =>
      var v, w := Eval(l, row), Eval(r, row);
      if op == "and" then And(v, w)
      else if op == "or" then Or(v, w)
      else if op in ["+", "-", "*", "/"] then Arith(op, v, w)
      else Compare(op, v, w)
    case Call(fn, args) =>
      if |args| != 2 then Bad
      else if fn == "coalesce" then Coalesce(Eval(args[0], row), Eval(args[1], row))
      else if fn == "nullif" then NullIf(Eval(args[0], row), Eval(args[1], row))
      else Bad
  }
}
