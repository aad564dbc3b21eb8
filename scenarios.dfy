/**
 * Concrete inputs and the exact text or lines the generator produces for
 * them.
 */
module Scenarios {
  import opened Options
  import opened Ast
  import opened Numerals
  import opened Literals
  import opened Emitter
  import opened Resolver
  import opened Expressions
  import opened Generator
  import Shapes

  /** The six lines of `Delay1`: header, result variable, the sleep, result, brace, blank line. */
  lemma Delay1Lines()
    ensures SequenceLines("Delay1", Sequence([Control(None, None, Some(Num(1, Dec)), Some(500), [])]))
         == [Line(0, "fn s_Delay1(ctx) {"), Line(1, "let __Result = 0;"), Line(1, "ctx.sleep(500);"),
             Line(1, "__Result"), Line(0, "}"), Line(0, "")]
  {
    var s := Control(None, None, Some(Num(1, Dec)), Some(500), []);
    Decimals();
    assert "ctx.sleep(" + Decimal(500) + ");" == "ctx.sleep(500);";
    assert LoopLines(s, {ResultVar}, 1) == [Line(1, "ctx.sleep(500);")];
    assert StructLowered(s, {ResultVar}, 1).lines == [] + [] + [Line(1, "ctx.sleep(500);")] + [];
    OneStruct(s, {ResultVar}, 1);
    FrameTexts();
  }

  lemma FrameTexts()
    ensures "fn s_" + "Delay1" + "(ctx) {" == "fn s_Delay1(ctx) {"
    ensures "let " + ResultVar + " = 0;" == "let __Result = 0;"
  {
  }

  /**
   * A name declared in the body of a control node is a local inside that
   * body and a persistent variable right after the node.
   */
  lemma ControlScopeLines()
    ensures BodyLowered([Control(None, None, None, None,
                                 [Block(None, false, [Declare("n", Num(0, Dec)), Assign("n", Num(1, Dec))])]),
                         Block(None, false, [Assign("n", Num(2, Dec))])],
                        {ResultVar}, 1).lines
         == [Line(1, "let l_n = u64(0);"), Line(1, "l_n = u64(1);"), Line(1, "ctx.vars[\"n\"] = u64(2);")]
  {
    var r := {ResultVar};
    var inner := [Declare("n", Num(0, Dec)), Assign("n", Num(1, Dec))];
    var blk := Block(None, false, inner);
    var c := Control(None, None, None, None, [blk]);
    var b := Block(None, false, [Assign("n", Num(2, Dec))]);
    var declared := [Line(1, "let l_n = u64(0);"), Line(1, "l_n = u64(1);")];
    StatementTexts();
    TwoStmts(inner[0], inner[1], r, 1);
    assert StructLowered(blk, r, 1).lines == [] + [] + declared + [];
    OneStruct(blk, r, 1);
    assert StructLowered(c, r, 1) == Lowered([] + [] + declared + [], r);
    OneStmt(b.stmts[0], r, 1);
    assert StructLowered(b, r, 1) == Lowered([] + [] + [Line(1, "ctx.vars[\"n\"] = u64(2);")] + [], r);
    TwoStructs(c, b, r, 1);
  }

  /** `Num(5)` with a 200 microsecond timeout is a single delay for 200, not a loop, whatever the body. */
  lemma DelayNotLoop(body: seq<Struct>)
    ensures StructLowered(Control(None, None, Some(Num(5, Dec)), Some(200), body), {}, 1).lines
         == [Line(1, "ctx.sleep(200);")]
  {
    var s := Control(None, None, Some(Num(5, Dec)), Some(200), body);
    DelaySleepLine(body);
    assert StructLowered(s, {}, 1).lines == [] + [] + LoopLines(s, {}, 1) + [];
  }

  /** The loop lowering of that node on its own. */
  lemma DelaySleepLine(body: seq<Struct>)
    ensures LoopLines(Control(None, None, Some(Num(5, Dec)), Some(200), body), {}, 1) == [Line(1, "ctx.sleep(200);")]
  {
    Decimals();
    assert SleepLine(Some(200)) == "ctx.sleep(200);";
    assert IsDelayLoop(Some(Num(5, Dec)));
  }

  /** A loop on `x` with a timeout allocates the handle, tests `x` as a boolean and checks the handle each round. */
  lemma TimeoutLoopLines()
    ensures StructLowered(Control(None, None, Some(Var("x")), Some(1000), []), {}, 1).lines
         == [Line(1, "{"), Line(2, "let timeout = ctx.timeout(1000);"), Line(2, "while bool(ctx.vars[\"x\"]) {"),
             Line(3, "timeout.check();"), Line(2, "}"), Line(1, "}")]
  {
    var s := Control(None, None, Some(Var("x")), Some(1000), []);
    TimeoutLoopSix();
    assert StructLowered(s, {}, 1).lines == [] + [] + LoopLines(s, {}, 1) + [];
  }

  /** The loop lowering of that node on its own. */
  lemma TimeoutLoopSix()
    ensures LoopLines(Control(None, None, Some(Var("x")), Some(1000), []), {}, 1)
         == [Line(1, "{"), Line(2, "let timeout = ctx.timeout(1000);"), Line(2, "while bool(ctx.vars[\"x\"]) {"),
             Line(3, "timeout.check();"), Line(2, "}"), Line(1, "}")]
  {
    var s := Control(None, None, Some(Var("x")), Some(1000), []);
    Shapes.TimeoutLoopShape(s, {}, 1);
    WhileX();
    Decimals();
    assert "let timeout = ctx.timeout(" + Decimal(1000) + ");" == "let timeout = ctx.timeout(1000);";
    var head := [Line(1, "{"), Line(2, "let timeout = ctx.timeout(1000);"), Line(2, "while bool(ctx.vars[\"x\"]) {")];
    var tail := [Line(3, "timeout.check();"), Line(2, "}"), Line(1, "}")];
    assert BodyLowered([], {}, 3).lines == [];
    assert head + [] + tail == head + tail;
  }

  /** An atomic block wraps its two statements, in order and one level in, in an annotated scope. */
  lemma AtomicBlockLines()
    ensures StructLowered(Block(None, true, [Assign("a", Num(1, Dec)), Assign("b", Num(2, Dec))]), {}, 1).lines
         == [Line(1, "// atomic"), Line(1, "{"), Line(2, "ctx.vars[\"a\"] = u64(1);"),
             Line(2, "ctx.vars[\"b\"] = u64(2);"), Line(1, "}")]
  {
    var stmts := [Assign("a", Num(1, Dec)), Assign("b", Num(2, Dec))];
    StatementTexts();
    TwoStmts(stmts[0], stmts[1], {}, 2);
    var inner := [Line(2, "ctx.vars[\"a\"] = u64(1);"), Line(2, "ctx.vars[\"b\"] = u64(2);")];
    assert StructLowered(Block(None, true, stmts), {}, 1).lines
        == [] + ([Line(1, "// atomic")] + [Line(1, "{")]) + inner + [Line(1, "}")];
  }

  /** A hexadecimal declaration and an assignment that reads the new local back. */
  lemma DeclareThenAssignLines()
    ensures StmtsLowered([Declare("a", Num(10, Hex)), Assign("a", Binary(Add, Var("a"), Num(1, Dec)))], {}, 1).lines
         == [Line(1, "let l_a = u64(0xa);"), Line(1, "l_a = l_a + u64(1);")]
  {
    var stmts := [Declare("a", Num(10, Hex)), Assign("a", Binary(Add, Var("a"), Num(1, Dec)))];
    StatementTexts();
    TwoStmts(stmts[0], stmts[1], {}, 1);
  }

  /** A host call: `ctx.cmsis_` and the function name, then an expression argument and a quoted string. */
  lemma HostCallLine()
    ensures GenExpr(Call("Write32", [ExprArg(Var("a")), StringArg("s")]), {}, false).text
         == "ctx.cmsis_Write32(ctx.vars[\"a\"], \"s\")"
  {
    HostCallText("Write32", [ExprArg(Var("a")), StringArg("s")], {}, false);
    WriteArgs();
    WriteCall();
  }

  /** `Sequence("Reset")` calls the generated function of that sequence. */
  lemma SequenceCallText()
    ensures GenExpr(Call("Sequence", [StringArg("Reset")]), {}, false).text == "s_Reset(ctx)"
  {
  }

  /** A `Sequence` call whose argument is not a string writes ` #ERROR# ` and no error is reported. */
  lemma SequenceCallError()
    ensures GenExpr(Call("Sequence", [ExprArg(Var("x"))]), {}, false).text == " #ERROR# "
  {
  }

  /** A conditional: its test coerced to `bool`, both branches at their own type. */
  lemma CondText()
    ensures GenExpr(Cond(Var("x"), Num(1, Dec), Num(2, Dec)), {}, false)
         == Rendered("if bool(ctx.vars[\"x\"]) {" + "u64(1) } else { u64(2) }", Numeric)
  {
    NumberTexts();
    XAsBoolean();
    assert GenExpr(Num(1, Dec), {}, false).text == "u64(1)";
    assert GenExpr(Num(2, Dec), {}, false).text == "u64(2)";
    assert "if " + "bool(ctx.vars[\"x\"])" + " {" == "if bool(ctx.vars[\"x\"]) {";
    assert "u64(1)" + " } else { " + "u64(2)" + " }" == "u64(1) } else { u64(2) }";
  }

  /** A nested numeric negation is parenthesised. */
  lemma NegText()
    ensures GenExpr(Unary(Neg, Var("x")), {}, true) == Rendered("(-ctx.vars[\"x\"])", Numeric)
  {
    assert "x" !in DebugAccessVariables;
    assert GenExpr(Var("x"), {}, true).text == "ctx.vars[\"x\"]";
    assert "(" + ("-" + "ctx.vars[\"x\"]") + ")" == "(-ctx.vars[\"x\"])";
  }

  /** A comparison is boolean, so it is converted when a number is wanted. */
  lemma CompareText()
    ensures GenExpr(Binary(Lt, Var("a"), Num(2, Dec)), {"a"}, false) == Rendered("l_a < u64(2)", Boolean)
    ensures ExprAs(Numeric, Binary(Lt, Var("a"), Num(2, Dec)), {"a"}, false) == "u64(l_a < u64(2))"
  {
    NumberTexts();
    assert "a" !in DebugAccessVariables;
    assert GenExpr(Var("a"), {"a"}, true).text == "l_a";
    assert GenExpr(Num(2, Dec), {"a"}, true).text == "u64(2)";
    assert BinOpTable(Lt) == ("<", Cmp);
    assert "l_a" + " " + "<" + " " + "u64(2)" == "l_a < u64(2)";
    assert "u64(" + "l_a < u64(2)" + ")" == "u64(l_a < u64(2))";
  }

  /**
   * The frame declares and returns `__Result`, but `__Result` is one of the
   * body's locals, so an assignment to it writes `l___Result`, a name the
   * frame never declares.
   */
  lemma ResultAssignmentMissesFrame()
    ensures SequenceLines("S", Sequence([Block(None, false, [Assign(ResultVar, Num(1, Dec))])]))
         == [Line(0, "fn s_S(ctx) {"), Line(1, "let __Result = 0;"), Line(1, "l___Result = u64(1);"),
             Line(1, "__Result"), Line(0, "}"), Line(0, "")]
  {
    ResultAssignment();
    FrameTexts();
    var b := Block(None, false, [Assign(ResultVar, Num(1, Dec))]);
    OneStmt(Assign(ResultVar, Num(1, Dec)), {ResultVar}, 1);
    assert StructLowered(b, {ResultVar}, 1).lines == [Line(1, "l___Result = u64(1);")];
    OneStruct(b, {ResultVar}, 1);
    assert "fn s_" + "S" + "(ctx) {" == "fn s_S(ctx) {";
  }

  // ---- the pieces the scenarios are made of ----

  lemma WriteArgs()
    ensures Join(ArgTexts([ExprArg(Var("a")), StringArg("s")], {})) == "ctx.vars[\"a\"], \"s\""
  {
    var args := [ExprArg(Var("a")), StringArg("s")];
    assert "a" !in DebugAccessVariables;
    assert ArgText(args[0], {}) == "ctx.vars[\"a\"]";
    assert ArgText(args[1], {}) == "\"s\"";
    assert args[1..] == [StringArg("s")] && args[1..][1..] == [];
    assert ArgTexts(args[1..], {}) == ["\"s\""];
    assert ArgTexts(args, {}) == ["ctx.vars[\"a\"]"] + ["\"s\""];
    assert Join(ArgTexts(args, {})) == "ctx.vars[\"a\"]" + ", " + "\"s\"";
  }

  lemma WriteCall()
    ensures "ctx.cmsis_" + "Write32" + "(" + "ctx.vars[\"a\"], \"s\"" + ")"
         == "ctx.cmsis_Write32(ctx.vars[\"a\"], \"s\")"
  {
  }

  lemma ResultAssignment()
    ensures StmtLine(Assign(ResultVar, Num(1, Dec)), {ResultVar}) == ("l___Result = u64(1);", {ResultVar})
  {
    NumberTexts();
    ResultNotReserved();
    assert VarPath(ResultVar, {ResultVar}) == "l_" + "__Result";
    NumeralAsNumber(1, Dec, {ResultVar});
    assert "l_" + "__Result" + " = " + "u64(1)" + ";" == "l___Result = u64(1);";
  }

  lemma OneStmt(x: Stmt, locals: set<string>, d: nat)
    ensures StmtsLowered([x], locals, d) == Lowered([Line(d, StmtLine(x, locals).0)], StmtLine(x, locals).1)
  {
    assert [x][..0] == [];
  }

  lemma TwoStmts(x: Stmt, y: Stmt, locals: set<string>, d: nat)
    ensures StmtsLowered([x, y], locals, d)
         == Lowered([Line(d, StmtLine(x, locals).0), Line(d, StmtLine(y, StmtLine(x, locals).1).0)],
                    StmtLine(y, StmtLine(x, locals).1).1)
  {
    assert [x, y][..1] == [x];
    OneStmt(x, locals, d);
  }

  lemma OneStruct(s: Struct, locals: set<string>, d: nat)
    ensures BodyLowered([s], locals, d) == Lowered([] + StructLowered(s, locals, d).lines, StructLowered(s, locals, d).locals)
  {
    assert [s][..0] == [];
  }

  lemma TwoStructs(s: Struct, t: Struct, locals: set<string>, d: nat)
    ensures BodyLowered([s, t], locals, d).lines
         == [] + StructLowered(s, locals, d).lines + StructLowered(t, StructLowered(s, locals, d).locals, d).lines
  {
    assert [s, t][..1] == [s];
    OneStruct(s, locals, d);
  }

  /** The lines of the statements the scenarios use. */
  lemma StatementTexts()
    ensures StmtLine(Declare("n", Num(0, Dec)), {ResultVar}) == ("let l_n = u64(0);", {ResultVar, "n"})
    ensures StmtLine(Assign("n", Num(1, Dec)), {ResultVar, "n"}) == ("l_n = u64(1);", {ResultVar, "n"})
    ensures StmtLine(Assign("n", Num(2, Dec)), {ResultVar}) == ("ctx.vars[\"n\"] = u64(2);", {ResultVar})
    ensures StmtLine(Assign("a", Num(1, Dec)), {}) == ("ctx.vars[\"a\"] = u64(1);", {})
    ensures StmtLine(Assign("b", Num(2, Dec)), {}) == ("ctx.vars[\"b\"] = u64(2);", {})
    ensures StmtLine(Declare("a", Num(10, Hex)), {}) == ("let l_a = u64(0xa);", {"a"})
    ensures StmtLine(Assign("a", Binary(Add, Var("a"), Num(1, Dec))), {"a"}) == ("l_a = l_a + u64(1);", {"a"})
  {
    NumberTexts();
    DeclareN();
    AssignN();
    AssignAB();
    DeclareA();
    IncrementA();
  }

  lemma NumberTexts()
    ensures GenNum(0, Dec) == "u64(0)" && GenNum(1, Dec) == "u64(1)" && GenNum(2, Dec) == "u64(2)"
    ensures GenNum(10, Hex) == "u64(0xa)"
  {
    Decimals();
    assert LowerHex(10) == "a";
  }

  lemma NumeralAsNumber(v: u64, style: NumStyle, locals: set<string>)
    ensures ExprAs(Numeric, Num(v, style), locals, false) == GenNum(v, style)
  {
    assert GenExpr(Num(v, style), locals, false).text == GenNum(v, style);
  }

  lemma DeclareN()
    requires GenNum(0, Dec) == "u64(0)"
    ensures StmtLine(Declare("n", Num(0, Dec)), {ResultVar}) == ("let l_n = u64(0);", {ResultVar, "n"})
  {
    assert {ResultVar} + {"n"} == {ResultVar, "n"};
    NumeralAsNumber(0, Dec, {ResultVar, "n"});
    assert "let l_" + "n" + " = " + "u64(0)" + ";" == "let l_n = u64(0);";
  }

  lemma AssignN()
    requires GenNum(1, Dec) == "u64(1)" && GenNum(2, Dec) == "u64(2)"
    ensures StmtLine(Assign("n", Num(1, Dec)), {ResultVar, "n"}) == ("l_n = u64(1);", {ResultVar, "n"})
    ensures StmtLine(Assign("n", Num(2, Dec)), {ResultVar}) == ("ctx.vars[\"n\"] = u64(2);", {ResultVar})
  {
    assert "n" !in DebugAccessVariables;
    assert VarPath("n", {ResultVar, "n"}) == "l_" + "n";
    assert VarPath("n", {ResultVar}) == "ctx.vars[\"" + "n" + "\"]";
    NumeralAsNumber(1, Dec, {ResultVar, "n"});
    NumeralAsNumber(2, Dec, {ResultVar});
    assert "l_" + "n" + " = " + "u64(1)" + ";" == "l_n = u64(1);";
    assert "ctx.vars[\"" + "n" + "\"]" + " = " + "u64(2)" + ";" == "ctx.vars[\"n\"] = u64(2);";
  }

  lemma AssignAB()
    requires GenNum(1, Dec) == "u64(1)" && GenNum(2, Dec) == "u64(2)"
    ensures StmtLine(Assign("a", Num(1, Dec)), {}) == ("ctx.vars[\"a\"] = u64(1);", {})
    ensures StmtLine(Assign("b", Num(2, Dec)), {}) == ("ctx.vars[\"b\"] = u64(2);", {})
  {
    assert "a" !in DebugAccessVariables && "b" !in DebugAccessVariables;
    assert VarPath("a", {}) == "ctx.vars[\"" + "a" + "\"]";
    assert VarPath("b", {}) == "ctx.vars[\"" + "b" + "\"]";
    NumeralAsNumber(1, Dec, {});
    NumeralAsNumber(2, Dec, {});
    assert "ctx.vars[\"" + "a" + "\"]" + " = " + "u64(1)" + ";" == "ctx.vars[\"a\"] = u64(1);";
    assert "ctx.vars[\"" + "b" + "\"]" + " = " + "u64(2)" + ";" == "ctx.vars[\"b\"] = u64(2);";
  }

  lemma DeclareA()
    requires GenNum(10, Hex) == "u64(0xa)"
    ensures StmtLine(Declare("a", Num(10, Hex)), {}) == ("let l_a = u64(0xa);", {"a"})
  {
    assert {} + {"a"} == {"a"};
    NumeralAsNumber(10, Hex, {"a"});
    assert "let l_" + "a" + " = " + "u64(0xa)" + ";" == "let l_a = u64(0xa);";
  }

  lemma IncrementA()
    requires GenNum(1, Dec) == "u64(1)"
    ensures StmtLine(Assign("a", Binary(Add, Var("a"), Num(1, Dec))), {"a"}) == ("l_a = l_a + u64(1);", {"a"})
  {
    assert "a" !in DebugAccessVariables;
    assert VarPath("a", {"a"}) == "l_" + "a";
    IncrementSum();
    assert "l_" + "a" + " = " + "l_a + u64(1)" + ";" == "l_a = l_a + u64(1);";
  }

  lemma IncrementSum()
    requires GenNum(1, Dec) == "u64(1)"
    ensures ExprAs(Numeric, Binary(Add, Var("a"), Num(1, Dec)), {"a"}, false) == "l_a + u64(1)"
  {
    assert "a" !in DebugAccessVariables;
    var sum := Binary(Add, Var("a"), Num(1, Dec));
    assert GenExpr(Var("a"), {"a"}, true).text == "l_a";
    assert GenExpr(Num(1, Dec), {"a"}, true).text == "u64(1)";
    assert BinOpTable(Add) == ("+", Plain);
    assert GenExpr(sum, {"a"}, false).text == "l_a" + " " + "+" + " " + "u64(1)";
  }

  lemma WhileX()
    ensures "while " + ExprAs(Boolean, Var("x"), {}, false) + " {" == "while bool(ctx.vars[\"x\"]) {"
  {
    XAsBoolean();
    assert "while " + "bool(ctx.vars[\"x\"])" + " {" == "while bool(ctx.vars[\"x\"]) {";
  }

  lemma XAsBoolean()
    ensures ExprAs(Boolean, Var("x"), {}, false) == "bool(ctx.vars[\"x\"])"
  {
    assert "x" !in DebugAccessVariables;
    assert GenExpr(Var("x"), {}, false).text == "ctx.vars[\"x\"]";
  }

  lemma Decimals()
    ensures Decimal(0) == "0" && Decimal(1) == "1" && Decimal(2) == "2"
    ensures Decimal(200) == "200" && Decimal(500) == "500" && Decimal(1000) == "1000"
  {
    assert Digits(20, 10) == "20";
    assert Digits(50, 10) == "50";
    assert Digits(100, 10) == "100" by {
      assert Digits(10, 10) == "10";
    }
  }
}
