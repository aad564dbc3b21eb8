/**
 * The expression translator (`gen_expr`, `expr_as`, `Type` in
 * src/generator.rs). `gen_expr` writes into a writer only pieces of one
 * expression and the writer `expr_as` uses starts at depth zero, where it
 * copies text unchanged (`Emitter.EmittedFlat`), so here an expression
 * renders to a string and its inferred type.
 */
module Expressions {
  import opened Ast
  import opened Literals
  import opened Resolver

  /** The two type domains of the script: `u64` numbers and booleans. */
  datatype Type = Numeric | Boolean

  datatype Rendered = Rendered(text: string, ty: Type)

  /** How a binary operator is rendered and what it yields. */
  datatype OpStyle = Plain | Cmp | Logic

  /** The natural type of each node kind, stated independently of the renderer. */
  function NaturalType(e: Expr): Type
  {
    match e
    case Unary(op, _) => if op == Not then Boolean else Numeric
    case Binary(op, _, _) => if YieldsBoolean(op) then Boolean else Numeric
    case _ => Numeric
  }

  /** Comparisons and the logical connectives yield booleans. */
  predicate YieldsBoolean(op: BinOp)
  {
    match op
    case Lt | Le | Ge | Gt | Eq | Ne | And | Or => true
    case _ => false
  }

  /** The script operator and the style of each binary operator. */
  function BinOpTable(op: BinOp): (r: (string, OpStyle))
    ensures r.1 == Logic <==> op == And || op == Or
    ensures r.1 != Plain <==> YieldsBoolean(op)
    ensures 1 <= |r.0| <= 2
  {
    match op
    case Add => ("+", Plain)
    case Sub => ("-", Plain)
    case Mul => ("*", Plain)
    case Div => ("/", Plain)
    case Rem => ("%", Plain)
    case BitXor => ("^", Plain)
    case BitAnd => ("&", Plain)
    case BitOr => ("|", Plain)
    case Shr => (">>", Plain)
    case Shl => ("<<", Plain)
    case Lt => ("<", Cmp)
    case Le => ("<=", Cmp)
    case Ge => (">=", Cmp)
    case Gt => (">", Cmp)
    case Eq => ("==", Cmp)
    case Ne => ("!=", Cmp)
    case And => ("&&", Logic)
    case Or => ("||", Logic)
  }

  /** The script operator of a numeric unary operator. */
  function UnOpText(op: UnOp): (r: string)
    requires op != Not
    ensures r == "" <==> op == Pos
    ensures |r| <= 1
  {
    match op
    case BitNot => "!"
    case Pos => ""
    case Neg => "-"
  }

  function Parenthesised(nested: bool, s: string): string
  {
    if nested then "(" + s + ")" else s
  }

  /** The conversion constructor that turns a value into type `t`. */
  function Coercion(t: Type): string
  {
    match t
    case Boolean => "bool("
    case Numeric => "u64("
  }

  /** `gen_expr`: the text of `e` and its inferred type. */
  function GenExpr(e: Expr, locals: set<string>, nested: bool): (r: Rendered)
    ensures r.ty == NaturalType(e)
    ensures r.text != ""
    decreases e, 1
  {
    match e
    case Num(v, style) => Rendered(GenNum(v, style), Numeric)
    case Var(name) => Rendered(VarPath(name, locals), Numeric)
    case Call(func, args) =>
      if func == "Sequence" then
        Rendered(if |args| == 1 && args[0].StringArg? then "s_" + args[0].text + "(ctx)" else " #ERROR# ",
                 Numeric)
      else
        Rendered("ctx.cmsis_" + func + "(" + GenArgs(e, 0, locals) + ")", Numeric)
    case Unary(op, operand) =>
      if op == Not then
        Rendered("!" + ExprAs(Boolean, operand, locals, true), Boolean)
      else
        Rendered(Parenthesised(nested, UnOpText(op) + GenExpr(operand, locals, true).text), Numeric)
    case Binary(op, lhs, rhs) =>
      var (sym, style) := BinOpTable(op);
      if style == Logic then
        // the left operand on both sides, as src/generator.rs:364-366 has it
        var left := ExprAs(Boolean, lhs, locals, true);
        Rendered(Parenthesised(nested, left + " " + sym + " " + left), Boolean)
      else
        Rendered(Parenthesised(nested, GenExpr(lhs, locals, true).text + " " + sym + " "
                                       + GenExpr(rhs, locals, true).text),
                 if style == Cmp then Boolean else Numeric)
    case Cond(test, ifTrue, ifFalse) =>
      Rendered("if " + ExprAs(Boolean, test, locals, false) + " {" + GenExpr(ifTrue, locals, false).text
               + " } else { " + GenExpr(ifFalse, locals, false).text + " }",
               Numeric)
  }

  /** The arguments of `call` from index `i` on, separated by ", ". */
  function GenArgs(call: Expr, i: nat, locals: set<string>): (r: string)
    requires call.Call? && i <= |call.args|
    ensures r == "" <==> i == |call.args|
    ensures 0 < i < |call.args| ==> |r| > 2 && r[..2] == ", "
    decreases call, 0, |call.args| - i
  {
    if i == |call.args| then ""
    else
      (if i > 0 then ", " else "")
      + (match call.args[i]
         case ExprArg(x) => GenExpr(x, locals, false).text
         case StringArg(s) => "\"" + s + "\"")
      + GenArgs(call, i + 1, locals)
  }

  /** The text of one call argument: an expression at its own type, a string in double quotes. */
  function ArgText(a: Arg, locals: set<string>): string
  {
    match a
    case ExprArg(x) => GenExpr(x, locals, false).text
    case StringArg(s) => "\"" + s + "\""
  }

  /** The texts of `args`, in order. */
  function ArgTexts(args: seq<Arg>, locals: set<string>): seq<string>
  {
    if args == [] then [] else [ArgText(args[0], locals)] + ArgTexts(args[1..], locals)
  }

  /** `parts` in order, separated by ", ". */
  function Join(parts: seq<string>): string
  {
    if |parts| == 0 then "" else if |parts| == 1 then parts[0] else parts[0] + ", " + Join(parts[1..])
  }

  /** From index `i` on, `GenArgs` writes the joined argument texts, after a separator unless `i` is 0 or the end. */
  lemma {:induction false} GenArgsJoins(call: Expr, i: nat, locals: set<string>)
    requires call.Call? && i <= |call.args|
    ensures GenArgs(call, i, locals)
         == (if 0 < i < |call.args| then ", " else "") + Join(ArgTexts(call.args[i..], locals))
    decreases |call.args| - i
  {
    if i < |call.args| {
      GenArgsJoins(call, i + 1, locals);
      assert call.args[i..][1..] == call.args[i + 1..];
      JoinCons(ArgText(call.args[i], locals), ArgTexts(call.args[i + 1..], locals));
    }
  }

  lemma JoinCons(head: string, rest: seq<string>)
    ensures Join([head] + rest) == if rest == [] then head else head + ", " + Join(rest)
  {
    assert ([head] + rest)[1..] == rest;
  }

  /** A host call is `ctx.cmsis_<func>(..)` around every argument's text, in order, separated by ", ". */
  lemma HostCallText(func: string, args: seq<Arg>, locals: set<string>, nested: bool)
    requires func != "Sequence"
    ensures GenExpr(Call(func, args), locals, nested).text
         == "ctx.cmsis_" + func + "(" + Join(ArgTexts(args, locals)) + ")"
  {
    GenArgsJoins(Call(func, args), 0, locals);
    assert args[0..] == args;
  }

  /** `expr_as`: the text of `e` as a value of type `t`, converted only on a mismatch. */
  function ExprAs(t: Type, e: Expr, locals: set<string>, nested: bool): (r: string)
    ensures NaturalType(e) == t ==> r == GenExpr(e, locals, nested).text
    ensures NaturalType(e) != t ==> r == Coercion(t) + GenExpr(e, locals, nested).text + ")"
    decreases e, 2
  {
    var g := GenExpr(e, locals, nested);
    if g.ty == t then g.text else Coercion(t) + g.text + ")"
  }

  /** The text is left alone exactly when the natural type is the one asked for. */
  lemma CoercionOnlyOnMismatch(t: Type, e: Expr, locals: set<string>, nested: bool)
    ensures ExprAs(t, e, locals, nested) == GenExpr(e, locals, nested).text <==> NaturalType(e) == t
  {
    var s := GenExpr(e, locals, nested).text;
    if NaturalType(e) != t {
      assert |Coercion(t)| >= 4;
      assert |ExprAs(t, e, locals, nested)| > |s|;
    }
  }

  /** Operators are the only nodes the `nested` flag affects, and it only adds parentheses. */
  predicate IsOperator(e: Expr)
  {
    e.Binary? || (e.Unary? && e.op != Not)
  }

  lemma NestingParenthesisesOperatorsOnly(e: Expr, locals: set<string>)
    ensures GenExpr(e, locals, true).text
         == if IsOperator(e) then "(" + GenExpr(e, locals, false).text + ")"
            else GenExpr(e, locals, false).text
  {
  }

  /**
   * `&&` and `||` render their left operand, coerced to a boolean, on both
   * sides; the right operand does not occur in the output.
   */
  lemma LogicRepeatsLeftOperand(op: BinOp, lhs: Expr, rhs: Expr, rhs': Expr,
                                locals: set<string>, nested: bool)
    requires op == And || op == Or
    ensures GenExpr(Binary(op, lhs, rhs), locals, nested) == GenExpr(Binary(op, lhs, rhs'), locals, nested)
    ensures GenExpr(Binary(op, lhs, rhs), locals, nested).text
         == Parenthesised(nested, ExprAs(Boolean, lhs, locals, true)
                                  + (if op == And then " && " else " || ")
                                  + ExprAs(Boolean, lhs, locals, true))
  {
    var left := ExprAs(Boolean, lhs, locals, true);
    var sym := BinOpTable(op).0;
    var spaced := if op == And then " && " else " || ";
    assert " " + sym + " " == spaced;
    SpacedConcat(left, sym, left);
  }

  lemma SpacedConcat(a: string, sym: string, b: string)
    ensures a + " " + sym + " " + b == a + (" " + sym + " ") + b
  {
  }

  /** No two binary operators share a script symbol. */
  lemma BinOpSymbolsDistinct(a: BinOp, b: BinOp)
    requires BinOpTable(a).0 == BinOpTable(b).0
    ensures a == b
  {
  }

  /**
   * `BitNot` is written `!`, the symbol of logical `Not`: on an operand that
   * is already boolean, and outside any nesting, the two render the same
   * text while reporting different types.
   */
  lemma BitNotRendersAsNot(e: Expr, locals: set<string>)
    requires NaturalType(e) == Boolean
    ensures GenExpr(Unary(BitNot, e), locals, false).text == GenExpr(Unary(Not, e), locals, false).text
    ensures GenExpr(Unary(BitNot, e), locals, false).ty != GenExpr(Unary(Not, e), locals, false).ty
  {
  }

  /** The variable names `e` mentions, including those inside call arguments. */
  function Names(e: Expr): set<string>
    decreases e, 1
  {
    match e
    case Num(_, _) => {}
    case Var(name) => {name}
    case Call(_, _) => ArgNames(e, 0)
    case Unary(_, operand) => Names(operand)
    case Binary(_, lhs, rhs) => Names(lhs) + Names(rhs)
    case Cond(test, ifTrue, ifFalse) => Names(test) + Names(ifTrue) + Names(ifFalse)
  }

  function ArgNames(call: Expr, i: nat): set<string>
    requires call.Call? && i <= |call.args|
    decreases call, 0, |call.args| - i
  {
    if i == |call.args| then {}
    else
      (match call.args[i] case ExprArg(x) => Names(x) case StringArg(_) => {})
      + ArgNames(call, i + 1)
  }

  /** Two local sets that agree on the names `e` mentions. */
  predicate AgreeOn(names: set<string>, l1: set<string>, l2: set<string>)
  {
    forall n :: n in names ==> (n in l1 <==> n in l2)
  }

  /** The local set matters to an expression only through the names it mentions. */
  lemma {:induction false} LocalsMatterOnlyOnNames(e: Expr, l1: set<string>, l2: set<string>, nested: bool)
    requires AgreeOn(Names(e), l1, l2)
    ensures GenExpr(e, l1, nested) == GenExpr(e, l2, nested)
    decreases e, 1
  {
    match e
    case Num(_, _) =>
    case Var(_) =>
    case Call(func, _) =>
      if func != "Sequence" {
        ArgsMatterOnlyOnNames(e, 0, l1, l2);
      }
    case Unary(_, operand) =>
      LocalsMatterOnlyOnNames(operand, l1, l2, true);
    case Binary(_, lhs, rhs) =>
      LocalsMatterOnlyOnNames(lhs, l1, l2, true);
      LocalsMatterOnlyOnNames(rhs, l1, l2, true);
    case Cond(test, ifTrue, ifFalse) =>
      LocalsMatterOnlyOnNames(test, l1, l2, false);
      LocalsMatterOnlyOnNames(ifTrue, l1, l2, false);
      LocalsMatterOnlyOnNames(ifFalse, l1, l2, false);
  }

  lemma {:induction false} ArgsMatterOnlyOnNames(call: Expr, i: nat, l1: set<string>, l2: set<string>)
    requires call.Call? && i <= |call.args|
    requires AgreeOn(ArgNames(call, i), l1, l2)
    ensures GenArgs(call, i, l1) == GenArgs(call, i, l2)
    decreases call, 0, |call.args| - i
  {
    if i < |call.args| {
      if call.args[i].ExprArg? {
        LocalsMatterOnlyOnNames(call.args[i].expr, l1, l2, false);
      }
      ArgsMatterOnlyOnNames(call, i + 1, l1, l2);
    }
  }
}
