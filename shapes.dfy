/**
 * What the lowering of `gen_body` promises beyond line-by-line agreement
 * with the writer: how local names are scoped, that nesting never goes left
 * of the enclosing depth, and the exact shapes of the three loop forms and
 * of a generated function.
 */
module Shapes {
  import opened Options
  import opened Ast
  import opened Numerals
  import opened Emitter
  import opened Resolver
  import opened Expressions
  import opened Generator

  // ---- scoping of local names ----

  /** The names a statement list declares. */
  function StmtsDeclared(stmts: seq<Stmt>): set<string>
  {
    if stmts == [] then {}
    else
      var last := stmts[|stmts| - 1];
      StmtsDeclared(stmts[..|stmts| - 1]) + (if last.Declare? then {last.name} else {})
  }

  /** The names a body declares where its caller can see them: in its blocks, not inside control nodes. */
  function BodyDeclared(body: seq<Struct>): set<string>
  {
    if body == [] then {}
    else
      var last := body[|body| - 1];
      BodyDeclared(body[..|body| - 1]) + (if last.Block? then StmtsDeclared(last.stmts) else {})
  }

  /** Statements extend the local set by exactly the names they declare. */
  lemma {:induction false} StmtsLocals(stmts: seq<Stmt>, locals: set<string>, depth: nat)
    ensures StmtsLowered(stmts, locals, depth).locals == locals + StmtsDeclared(stmts)
  {
    if stmts != [] {
      var front := stmts[..|stmts| - 1];
      StmtsLocals(front, locals, depth);
      var prev := StmtsLowered(front, locals, depth);
      var last := stmts[|stmts| - 1];
      assert StmtsLowered(stmts, locals, depth).locals == StmtLine(last, prev.locals).1;
    }
  }

  /**
   * After a body the local set has grown by the declarations of its blocks;
   * what control nodes declare stays inside them.
   */
  lemma {:induction false} BodyLocals(body: seq<Struct>, locals: set<string>, depth: nat)
    ensures BodyLowered(body, locals, depth).locals == locals + BodyDeclared(body)
  {
    if body != [] {
      var front := body[..|body| - 1];
      BodyLocals(front, locals, depth);
      var prev := BodyLowered(front, locals, depth);
      var last := body[|body| - 1];
      if last.Block? {
        StmtsLocals(last.stmts, prev.locals, if last.atomic then depth + 1 else depth);
      }
      assert BodyLowered(body, locals, depth).locals == StructLowered(last, prev.locals, depth).locals;
    }
  }

  /**
   * The storage a name has after a body: a debug-access variable stays one,
   * a name the body's blocks declared is local, and a name declared only
   * inside a control node is persistent again once that node ends.
   */
  lemma StorageAfterBody(name: string, body: seq<Struct>, locals: set<string>, depth: nat)
    ensures StorageOf(name, BodyLowered(body, locals, depth).locals)
         == if name in DebugAccessVariables then Session
            else if name in locals || name in BodyDeclared(body) then Local
            else Persistent
  {
    BodyLocals(body, locals, depth);
  }

  /** A control node leaves the caller's local set exactly as it was, whatever its body declares. */
  lemma ControlKeepsLocals(s: Struct, locals: set<string>, depth: nat)
    requires s.Control?
    ensures BodyLowered([s], locals, depth).locals == locals
  {
    BodyLocals([s], locals, depth);
    assert [s][..0] == [];
  }

  /** The initialiser of a declaration already sees the declared name as a local. */
  lemma DeclareSeesItself(name: string, locals: set<string>)
    requires name !in DebugAccessVariables
    ensures StmtLine(Declare(name, Var(name)), locals).0 == "let l_" + name + " = l_" + name + ";"
  {
    var inner := locals + {name};
    assert ExprAs(Numeric, Var(name), inner, false) == "l_" + name;
  }

  // ---- depths ----

  /** Every line is at depth `d` or deeper. */
  predicate AtLeast(lines: seq<Line>, d: nat)
  {
    forall i :: 0 <= i < |lines| ==> lines[i].depth >= d
  }

  lemma AtLeastAppend(a: seq<Line>, b: seq<Line>, d: nat)
    requires AtLeast(a, d) && AtLeast(b, d)
    ensures AtLeast(a + b, d)
  {
    forall i | 0 <= i < |a + b|
      ensures (a + b)[i].depth >= d
    {
      if i >= |a| {
        assert (a + b)[i] == b[i - |a|];
      }
    }
  }

  lemma AtLeastDeeper(lines: seq<Line>, d: nat, e: nat)
    requires AtLeast(lines, e) && d <= e
    ensures AtLeast(lines, d)
  {
  }

  lemma StmtsDepths(stmts: seq<Stmt>, locals: set<string>, depth: nat)
    ensures AtLeast(StmtsLowered(stmts, locals, depth).lines, depth)
    ensures |StmtsLowered(stmts, locals, depth).lines| == |stmts|
  {
    if stmts != [] {
      var prev := StmtsLowered(stmts[..|stmts| - 1], locals, depth);
      StmtsDepths(stmts[..|stmts| - 1], locals, depth);
      AtLeastAppend(prev.lines, [Line(depth, StmtLine(stmts[|stmts| - 1], prev.locals).0)], depth);
    }
  }

  /** Nothing `gen_body` writes is indented less than the depth it starts at. */
  lemma {:induction false} BodyDepths(body: seq<Struct>, locals: set<string>, depth: nat)
    ensures AtLeast(BodyLowered(body, locals, depth).lines, depth)
    decreases body, 0
  {
    if body != [] {
      var prev := BodyLowered(body[..|body| - 1], locals, depth);
      BodyDepths(body[..|body| - 1], locals, depth);
      StructDepths(body[|body| - 1], prev.locals, depth);
      AtLeastAppend(prev.lines, StructLowered(body[|body| - 1], prev.locals, depth).lines, depth);
    }
  }

  lemma {:induction false} StructDepths(s: Struct, locals: set<string>, depth: nat)
    ensures AtLeast(StructLowered(s, locals, depth).lines, depth)
    decreases s, 2
  {
    match s
    case Control(ifCond, info, _, _, _) =>
      var test := if ifCond.Some? then Some(ExprAs(Boolean, ifCond.value, locals, false)) else None;
      var g := GuardedDepth(test, depth);
      var loop := LoopLines(s, locals, g);
      LoopDepths(s, locals, g);
      AtLeastDeeper(loop, depth, g);
      var p0 := GuardOpen(test, depth);
      var p1 := p0 + NoteLines(info, g);
      AtLeastAppend(p0, NoteLines(info, g), depth);
      AtLeastAppend(p1, loop, depth);
      AtLeastAppend(p1 + loop, Closing(test.Some?, depth), depth);
    case Block(info, atomic, stmts) =>
      var inner := StmtsLowered(stmts, locals, if atomic then depth + 1 else depth).lines;
      StmtsDepths(stmts, locals, if atomic then depth + 1 else depth);
      AtLeastDeeper(inner, depth, if atomic then depth + 1 else depth);
      var p0 := NoteLines(info, depth);
      var p1 := p0 + AtomicOpen(atomic, depth);
      AtLeastAppend(p0, AtomicOpen(atomic, depth), depth);
      AtLeastAppend(p1, inner, depth);
      AtLeastAppend(p1 + inner, Closing(atomic, depth), depth);
  }

  lemma {:induction false} LoopDepths(s: Struct, locals: set<string>, d: nat)
    requires s.Control?
    ensures AtLeast(LoopLines(s, locals, d), d)
    decreases s, 1
  {
    if IsDelayLoop(s.whileCond) {
    } else if s.whileCond.Some? {
      var cond := ExprAs(Boolean, s.whileCond.value, locals, false);
      var w := WhileDepth(s.timeout, d);
      var inner := BodyLowered(s.body, locals, w + 1).lines;
      BodyDepths(s.body, locals, w + 1);
      AtLeastDeeper(inner, d, w + 1);
      var check := Optional(s.timeout.Some?, w + 1, "timeout.check();");
      var q0 := [Line(w, "while " + cond + " {")];
      AtLeastAppend(q0, inner, d);
      AtLeastAppend(q0 + inner, check, d);
      AtLeastAppend(q0 + inner + check, [Line(w, "}")], d);
      var block := WhileBlock(cond, inner, s.timeout.Some?, w);
      AtLeastAppend(TimeoutOpen(s.timeout, d), block, d);
      AtLeastAppend(TimeoutOpen(s.timeout, d) + block, Closing(s.timeout.Some?, d), d);
    } else {
      BodyDepths(s.body, locals, d);
    }
  }

  // ---- the three loop forms ----

  /** A positive literal condition makes the loop one delay by the timeout (zero without one); the body is dropped. */
  lemma DelayLoopShape(s: Struct, locals: set<string>, d: nat, other: seq<Struct>)
    requires s.Control? && s.whileCond.Some? && s.whileCond.value.Num? && s.whileCond.value.value > 0
    ensures LoopLines(s, locals, d) == [Line(d, "ctx.sleep(" + Decimal(if s.timeout.Some? then s.timeout.value else 0) + ");")]
    ensures LoopLines(s.(body := other), locals, d) == LoopLines(s, locals, d)
  {
  }

  /**
   * A loop with a timeout: a block holding the timeout handle, the `while`
   * one level in, its body two levels in and the check after the body.
   */
  lemma TimeoutLoopShape(s: Struct, locals: set<string>, d: nat)
    requires s.Control? && s.whileCond.Some? && !IsDelayLoop(s.whileCond) && s.timeout.Some?
    ensures LoopLines(s, locals, d)
         == [Line(d, "{"),
             Line(d + 1, "let timeout = ctx.timeout(" + Decimal(s.timeout.value) + ");"),
             Line(d + 1, "while " + ExprAs(Boolean, s.whileCond.value, locals, false) + " {")]
            + BodyLowered(s.body, locals, d + 2).lines
            + [Line(d + 2, "timeout.check();"), Line(d + 1, "}"), Line(d, "}")]
  {
    var cond := ExprAs(Boolean, s.whileCond.value, locals, false);
    var inner := BodyLowered(s.body, locals, d + 2).lines;
    var head := [Line(d, "{"), Line(d + 1, TimeoutLine(s.timeout.value))];
    var open := [Line(d + 1, "while " + cond + " {")];
    var tail := [Line(d + 2, "timeout.check();"), Line(d + 1, "}")];
    assert WhileBlock(cond, inner, true, d + 1) == open + inner + tail;
    assert LoopLines(s, locals, d) == head + (open + inner + tail) + [Line(d, "}")];
    assert head + (open + inner + tail) + [Line(d, "}")] == (head + open) + inner + (tail + [Line(d, "}")]);
  }

  /** Any other loop is a plain `while` at the node's depth around its body. */
  lemma PlainLoopShape(s: Struct, locals: set<string>, d: nat)
    requires s.Control? && s.whileCond.Some? && !IsDelayLoop(s.whileCond) && s.timeout.None?
    ensures LoopLines(s, locals, d)
         == [Line(d, "while " + ExprAs(Boolean, s.whileCond.value, locals, false) + " {")]
            + BodyLowered(s.body, locals, d + 1).lines + [Line(d, "}")]
  {
    var cond := ExprAs(Boolean, s.whileCond.value, locals, false);
    var inner := BodyLowered(s.body, locals, d + 1).lines;
    assert WhileBlock(cond, inner, false, d) == [Line(d, "while " + cond + " {")] + inner + [Line(d, "}")];
    assert TimeoutOpen(s.timeout, d) == [] && Closing(false, d) == [];
  }

  /** Without a loop condition the body is emitted once, in place, on a copy of the local set. */
  lemma NoLoopShape(s: Struct, locals: set<string>, d: nat)
    requires s.Control? && s.whileCond.None?
    ensures LoopLines(s, locals, d) == BodyLowered(s.body, locals, d).lines
  {
  }

  // ---- the frame of a generated function ----

  /**
   * Each generated function opens with its header and the result variable,
   * closes with the result, the brace and a blank line, and has its body
   * one level in with `__Result` as the only local.
   */
  lemma SequenceFrame(name: string, sq: Sequence)
    ensures var lines := SequenceLines(name, sq);
            var n := |BodyLowered(sq.body, {"__Result"}, 1).lines|;
            |lines| == n + 5
            && lines[0] == Line(0, "fn s_" + name + "(ctx) {")
            && lines[1] == Line(1, "let __Result = 0;")
            && lines[2..n + 2] == BodyLowered(sq.body, {"__Result"}, 1).lines
            && lines[n + 2..] == [Line(1, "__Result"), Line(0, "}"), Line(0, "")]
            && AtLeast(lines[2..n + 2], 1)
  {
    BodyDepths(sq.body, {ResultVar}, 1);
    var body := BodyLowered(sq.body, {ResultVar}, 1).lines;
    var lines := SequenceLines(name, sq);
    assert "let " + ResultVar + " = 0;" == "let __Result = 0;";
    var head := [Line(0, "fn s_" + name + "(ctx) {"), Line(1, "let __Result = 0;")];
    var tail := [Line(1, "__Result"), Line(0, "}"), Line(0, "")];
    assert lines == head + body + tail;
    assert lines[2..|body| + 2] == body;
    assert lines[|body| + 2..] == tail;
  }
}
