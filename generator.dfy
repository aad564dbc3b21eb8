/**
 * Statement, structure and sequence translation (`gen_stmt`, `gen_body` and
 * `gen_sequences` in src/generator.rs). The methods write through a shared
 * `Writer` as the source does; each is proved against a function that gives
 * the lines it emits (`Line`: depth and text) and the local set after it.
 * `Render` turns lines into the text the writer produces for them.
 */
module Generator {
  import opened Options
  import opened Ast
  import opened Numerals
  import opened Emitter
  import opened Resolver
  import opened Expressions

  /** The lines a construct emits and the local set in force after it. */
  datatype Lowered = Lowered(lines: seq<Line>, locals: set<string>)

  /** The name of the implicit result variable of every generated function. */
  const ResultVar: string := "__Result"

  function InfoLine(info: string): string
  {
    "ctx.info(\"" + info + "\");"
  }

  /** `gen_stmt`: the statement's line and the local set after it. */
  function StmtLine(stmt: Stmt, locals: set<string>): (r: (string, set<string>))
    ensures r.1 == if stmt.Declare? then locals + {stmt.name} else locals
    ensures |r.0| >= 2 && r.0[|r.0| - 1] == ';'
  {
    match stmt
    case Declare(name, value) =>
      // the name is local before its initialiser is rendered
      var inner := locals + {name};
      ("let l_" + name + " = " + ExprAs(Numeric, value, inner, false) + ";", inner)
    case Assign(name, value) =>
      (VarPath(name, locals) + " = " + ExprAs(Numeric, value, locals, false) + ";", locals)
    case ExprStmt(e) =>
      (GenExpr(e, locals, false).text + ";", locals)
  }

  /** The statements of a block, in order, all at `depth`, threading one local set. */
  function StmtsLowered(stmts: seq<Stmt>, locals: set<string>, depth: nat): Lowered
  {
    if stmts == [] then Lowered([], locals)
    else
      var prev := StmtsLowered(stmts[..|stmts| - 1], locals, depth);
      var (text, after) := StmtLine(stmts[|stmts| - 1], prev.locals);
      Lowered(prev.lines + [Line(depth, text)], after)
  }

  /** A loop condition that is a positive literal: the loop is a plain delay. */
  predicate IsDelayLoop(whileCond: Option<Expr>)
  {
    whileCond.Some? && whileCond.value.Num? && whileCond.value.value > 0
  }

  /** `gen_body` over a list of structures, starting at `depth`. */
  function BodyLowered(body: seq<Struct>, locals: set<string>, depth: nat): Lowered
    decreases body, 0
  {
    if body == [] then Lowered([], locals)
    else
      var prev := BodyLowered(body[..|body| - 1], locals, depth);
      var last := StructLowered(body[|body| - 1], prev.locals, depth);
      Lowered(prev.lines + last.lines, last.locals)
  }

  /** One arm of `gen_body`'s match. */
  function StructLowered(s: Struct, locals: set<string>, depth: nat): Lowered
    decreases s, 2
  {
    match s
    case Control(ifCond, info, _, _, _) =>
      var test := if ifCond.Some? then Some(ExprAs(Boolean, ifCond.value, locals, false)) else None;
      // the nested body works on a clone of the local set
      Lowered(ControlLines(test, info, LoopLines(s, locals, GuardedDepth(test, depth)), depth), locals)
    case Block(info, atomic, stmts) =>
      var inner := StmtsLowered(stmts, locals, if atomic then depth + 1 else depth);
      Lowered(BlockLines(info, atomic, inner.lines, depth), inner.locals)
  }

  /** The line `text` at depth `d`, when `c` holds. */
  function Optional(c: bool, d: nat, text: string): seq<Line>
  {
    if c then [Line(d, text)] else []
  }

  /** The closing brace at depth `d` of a scope opened only when `c` holds. */
  function Closing(c: bool, d: nat): seq<Line>
  {
    Optional(c, d, "}")
  }

  /** The depth inside an optional `if` guard. */
  function GuardedDepth(test: Option<string>, depth: nat): nat
  {
    if test.Some? then depth + 1 else depth
  }

  function GuardOpen(test: Option<string>, depth: nat): seq<Line>
  {
    if test.Some? then [Line(depth, "if " + test.value + " {")] else []
  }

  function NoteLines(info: Option<string>, depth: nat): seq<Line>
  {
    if info.Some? then [Line(depth, InfoLine(info.value))] else []
  }

  /** A control node around the lines `loop`, with its optional guard `test` and info line. */
  function ControlLines(test: Option<string>, info: Option<string>, loop: seq<Line>, depth: nat): seq<Line>
  {
    GuardOpen(test, depth) + NoteLines(info, GuardedDepth(test, depth)) + loop + Closing(test.Some?, depth)
  }

  function AtomicOpen(atomic: bool, depth: nat): seq<Line>
  {
    if atomic then [Line(depth, "// atomic")] + [Line(depth, "{")] else []
  }

  /** A block around the lines `inner` of its statements. */
  function BlockLines(info: Option<string>, atomic: bool, inner: seq<Line>, depth: nat): seq<Line>
  {
    NoteLines(info, depth) + AtomicOpen(atomic, depth) + inner + Closing(atomic, depth)
  }

  /** The `match &ctrl.while_cond` of a control node at depth `d`. */
  function LoopLines(s: Struct, locals: set<string>, d: nat): seq<Line>
    requires s.Control?
    decreases s, 1
  {
    if IsDelayLoop(s.whileCond) then
      [Line(d, SleepLine(s.timeout))]
    else if s.whileCond.Some? then
      WhileLines(ExprAs(Boolean, s.whileCond.value, locals, false), s.timeout,
                 BodyLowered(s.body, locals, WhileDepth(s.timeout, d) + 1).lines, d)
    else
      BodyLowered(s.body, locals, d).lines
  }

  function SleepLine(timeout: Option<u64>): string
  {
    "ctx.sleep(" + Decimal(timeout.GetOr(0)) + ");"
  }

  function TimeoutLine(timeout: u64): string
  {
    "let timeout = ctx.timeout(" + Decimal(timeout) + ");"
  }

  /** The depth of the `while` line: one deeper inside the block that scopes a timeout. */
  function WhileDepth(timeout: Option<u64>, d: nat): nat
  {
    if timeout.Some? then d + 1 else d
  }

  function TimeoutOpen(timeout: Option<u64>, d: nat): seq<Line>
  {
    if timeout.Some? then [Line(d, "{")] + [Line(d + 1, TimeoutLine(timeout.value))] else []
  }

  /** A genuine loop around the lines `inner` of its body, inside a timeout block if there is one. */
  function WhileLines(cond: string, timeout: Option<u64>, inner: seq<Line>, d: nat): seq<Line>
  {
    TimeoutOpen(timeout, d) + WhileBlock(cond, inner, timeout.Some?, WhileDepth(timeout, d)) + Closing(timeout.Some?, d)
  }

  /** The `while` statement itself at depth `w`; `check` adds the timeout check at the end of each round. */
  function WhileBlock(cond: string, inner: seq<Line>, check: bool, w: nat): seq<Line>
  {
    [Line(w, "while " + cond + " {")] + inner + Optional(check, w + 1, "timeout.check();") + [Line(w, "}")]
  }

  /** The function `gen_sequences` emits for one named sequence. */
  function SequenceLines(name: string, sq: Sequence): seq<Line>
  {
    [Line(0, "fn s_" + name + "(ctx) {")] + [Line(1, "let " + ResultVar + " = 0;")]
    + BodyLowered(sq.body, {ResultVar}, 1).lines
    + [Line(1, ResultVar)] + [Line(0, "}")] + [Line(0, "")]
  }

  function SequencesLines(seqs: Sequences): seq<Line>
  {
    if seqs == [] then []
    else
      var (name, sq) := seqs[|seqs| - 1];
      SequencesLines(seqs[..|seqs| - 1]) + SequenceLines(name, sq)
  }

  // ---- composing the pieces ----

  lemma AppendAssoc(a: seq<Line>, b: seq<Line>, c: seq<Line>)
    ensures (a + b) + c == a + (b + c)
  {
  }

  lemma StmtsLoweredSnoc(stmts: seq<Stmt>, j: nat, locals: set<string>, depth: nat)
    requires j < |stmts|
    ensures StmtsLowered(stmts[..j + 1], locals, depth)
         == var prev := StmtsLowered(stmts[..j], locals, depth);
            Lowered(prev.lines + [Line(depth, StmtLine(stmts[j], prev.locals).0)],
                    StmtLine(stmts[j], prev.locals).1)
  {
    assert stmts[..j + 1][..j] == stmts[..j];
  }

  lemma BodyLoweredSnoc(body: seq<Struct>, i: nat, locals: set<string>, depth: nat)
    requires i < |body|
    ensures BodyLowered(body[..i + 1], locals, depth)
         == var prev := BodyLowered(body[..i], locals, depth);
            Lowered(prev.lines + StructLowered(body[i], prev.locals, depth).lines,
                    StructLowered(body[i], prev.locals, depth).locals)
  {
    assert body[..i + 1][..i] == body[..i];
  }

  lemma SequencesLinesSnoc(seqs: Sequences, i: nat)
    requires i < |seqs|
    ensures SequencesLines(seqs[..i + 1]) == SequencesLines(seqs[..i]) + SequenceLines(seqs[i].0, seqs[i].1)
  {
    assert seqs[..i + 1][..i] == seqs[..i];
  }

  lemma ControlLowered(s: Struct, locals: set<string>, depth: nat, test: Option<string>)
    requires s.Control?
    requires test == if s.ifCond.Some? then Some(ExprAs(Boolean, s.ifCond.value, locals, false)) else None
    ensures StructLowered(s, locals, depth)
         == Lowered(ControlLines(test, s.info, LoopLines(s, locals, GuardedDepth(test, depth)), depth), locals)
  {
  }

  lemma BlockLowered(s: Struct, locals: set<string>, depth: nat)
    requires s.Block?
    ensures StructLowered(s, locals, depth)
         == var inner := StmtsLowered(s.stmts, locals, if s.atomic then depth + 1 else depth);
            Lowered(BlockLines(s.info, s.atomic, inner.lines, depth), inner.locals)
  {
  }

  /** An expression statement's two writes give the text of its one line. */
  lemma ExprStmtWrites(b: string, depth: nat, text: string)
    ensures (b + Emitted(depth, true, text)) + Emitted(depth, StartAfter(true, text), ";\n")
         == b + Emitted(depth, true, (text + ";") + "\n")
  {
    EmittedAppend(depth, true, text, ";\n");
    assert text + ";\n" == (text + ";") + "\n";
  }

  /** The pieces `GenWhileBlock` writes, in order, make up `WhileBlock`. */
  lemma WhileBlockWrites(l: seq<Line>, cond: string, inner: seq<Line>, check: bool, w: nat)
    ensures (((l + [Line(w, "while " + cond + " {")]) + inner)
             + Optional(check, w + 1, "timeout.check();")) + [Line(w, "}")]
         == l + WhileBlock(cond, inner, check, w)
  {
    var p0 := [Line(w, "while " + cond + " {")];
    var p1 := p0 + inner;
    var p2 := p1 + Optional(check, w + 1, "timeout.check();");
    AppendAssoc(l, p0, inner);
    AppendAssoc(l, p1, Optional(check, w + 1, "timeout.check();"));
    AppendAssoc(l, p2, [Line(w, "}")]);
  }

  /** The pieces `GenWhile` writes, in order, make up `WhileLines`. */
  lemma WhileWrites(l: seq<Line>, opening: seq<Line>, looping: seq<Line>, closing: seq<Line>,
                    cond: string, timeout: Option<u64>, inner: seq<Line>, d: nat)
    requires opening == l + TimeoutOpen(timeout, d)
    requires looping == opening + WhileBlock(cond, inner, timeout.Some?, WhileDepth(timeout, d))
    requires closing == looping + Closing(timeout.Some?, d)
    ensures closing == l + WhileLines(cond, timeout, inner, d)
  {
    var p0 := TimeoutOpen(timeout, d);
    var p1 := p0 + WhileBlock(cond, inner, timeout.Some?, WhileDepth(timeout, d));
    AppendAssoc(l, p0, WhileBlock(cond, inner, timeout.Some?, WhileDepth(timeout, d)));
    AppendAssoc(l, p1, Closing(timeout.Some?, d));
  }

  /** The pieces `GenControl` writes, in order, make up `ControlLines`. */
  lemma ControlWrites(l: seq<Line>, test: Option<string>, info: Option<string>, loop: seq<Line>, depth: nat)
    ensures (((l + GuardOpen(test, depth)) + NoteLines(info, GuardedDepth(test, depth)))
             + loop) + Closing(test.Some?, depth)
         == l + ControlLines(test, info, loop, depth)
  {
    var p0 := GuardOpen(test, depth);
    var p1 := p0 + NoteLines(info, GuardedDepth(test, depth));
    var p2 := p1 + loop;
    AppendAssoc(l, p0, NoteLines(info, GuardedDepth(test, depth)));
    AppendAssoc(l, p1, loop);
    AppendAssoc(l, p2, Closing(test.Some?, depth));
  }

  /** The pieces `GenBlock` writes, in order, make up `BlockLines`. */
  lemma BlockWrites(l: seq<Line>, info: Option<string>, atomic: bool, inner: seq<Line>, depth: nat)
    ensures (((l + NoteLines(info, depth)) + AtomicOpen(atomic, depth)) + inner) + Closing(atomic, depth)
         == l + BlockLines(info, atomic, inner, depth)
  {
    var p0 := NoteLines(info, depth);
    var p1 := p0 + AtomicOpen(atomic, depth);
    var p2 := p1 + inner;
    AppendAssoc(l, p0, AtomicOpen(atomic, depth));
    AppendAssoc(l, p1, inner);
    AppendAssoc(l, p2, Closing(atomic, depth));
  }

  /** The pieces `GenSequence` writes, in order, make up `SequenceLines`. */
  lemma SequenceWrites(l: seq<Line>, name: string, sq: Sequence)
    ensures (((((l + [Line(0, "fn s_" + name + "(ctx) {")]) + [Line(1, "let " + ResultVar + " = 0;")])
               + BodyLowered(sq.body, {ResultVar}, 1).lines)
              + [Line(1, ResultVar)]) + [Line(0, "}")]) + [Line(0, "")]
         == l + SequenceLines(name, sq)
  {
    var p0 := [Line(0, "fn s_" + name + "(ctx) {")];
    var p1 := p0 + [Line(1, "let " + ResultVar + " = 0;")];
    var p2 := p1 + BodyLowered(sq.body, {ResultVar}, 1).lines;
    var p3 := p2 + [Line(1, ResultVar)];
    var p4 := p3 + [Line(0, "}")];
    AppendAssoc(l, p0, [Line(1, "let " + ResultVar + " = 0;")]);
    AppendAssoc(l, p1, BodyLowered(sq.body, {ResultVar}, 1).lines);
    AppendAssoc(l, p2, [Line(1, ResultVar)]);
    AppendAssoc(l, p3, [Line(0, "}")]);
    AppendAssoc(l, p4, [Line(0, "")]);
  }

  // ---- the generator ----

  /** The writer is at the start of a line and its text is the rendering of the lines recorded so far. */
  ghost predicate Ready(w: Writer)
    reads w
  {
    w.start && w.buf == Render(w.lines)
  }

  /** One `writeln!` of `text` at the writer's depth. */
  method PutLine(w: Writer, text: string)
    requires Ready(w)
    modifies w
    ensures Ready(w) && w.lines == old(w.lines) + [Line(old(w.indent), text)]
    ensures w.indent == old(w.indent)
  {
    w.WriteLn(text);
    RenderSnoc(w.lines, Line(w.indent, text));
    w.lines := w.lines + [Line(w.indent, text)];
  }

  /** The optional `ctx.info` line of a control node or a block. */
  method GenInfo(w: Writer, info: Option<string>)
    requires Ready(w)
    modifies w
    ensures Ready(w) && w.lines == old(w.lines) + NoteLines(info, old(w.indent))
    ensures w.indent == old(w.indent)
  {
    if info.Some? {
      PutLine(w, InfoLine(info.value));
    } else {
      assert w.lines + [] == w.lines;
    }
  }

  /** A line written only when `c` holds. */
  method PutIf(w: Writer, c: bool, text: string)
    requires Ready(w)
    modifies w
    ensures Ready(w) && w.lines == old(w.lines) + Optional(c, old(w.indent), text)
    ensures w.indent == old(w.indent)
  {
    if c {
      PutLine(w, text);
    } else {
      assert w.lines + [] == w.lines;
    }
  }

  /** `w.outdent()` and a closing brace at depth `outer`, when the scope was opened (`c`). */
  method CloseIf(w: Writer, c: bool, ghost outer: nat)
    requires Ready(w) && w.indent == if c then outer + 1 else outer
    modifies w
    ensures Ready(w) && w.lines == old(w.lines) + Closing(c, outer)
    ensures w.indent == outer
  {
    if c {
      w.Outdent();
      PutLine(w, "}");
    } else {
      assert w.lines + [] == w.lines;
    }
  }

  /** `gen_stmt`: writes one line and returns the local set after the statement. */
  method GenStmt(w: Writer, stmt: Stmt, locals: set<string>) returns (after: set<string>)
    requires Ready(w)
    modifies w
    ensures Ready(w) && w.lines == old(w.lines) + [Line(old(w.indent), StmtLine(stmt, locals).0)]
    ensures w.indent == old(w.indent)
    ensures after == StmtLine(stmt, locals).1
  {
    match stmt
    case Declare(name, value) =>
      after := locals + {name};
      PutLine(w, "let l_" + name + " = " + ExprAs(Numeric, value, after, false) + ";");
    case Assign(name, value) =>
      after := locals;
      PutLine(w, VarPath(name, locals) + " = " + ExprAs(Numeric, value, locals, false) + ";");
    case ExprStmt(e) =>
      after := locals;
      var text := GenExpr(e, locals, false).text;
      ghost var b := w.buf;
      w.WriteStr(text);
      w.WriteLn(";");
      ExprStmtWrites(b, w.indent, text);
      RenderSnoc(w.lines, Line(w.indent, text + ";"));
      w.lines := w.lines + [Line(w.indent, text + ";")];
  }

  /** The statements of a block, each through `gen_stmt`, sharing one local set. */
  method GenStmts(w: Writer, stmts: seq<Stmt>, locals: set<string>) returns (after: set<string>)
    requires Ready(w)
    modifies w
    ensures Ready(w) && w.lines == old(w.lines) + StmtsLowered(stmts, locals, old(w.indent)).lines
    ensures w.indent == old(w.indent)
    ensures after == StmtsLowered(stmts, locals, old(w.indent)).locals
  {
    var d := w.indent;
    after := locals;
    for j := 0 to |stmts|
      invariant Ready(w) && w.lines == old(w.lines) + StmtsLowered(stmts[..j], locals, d).lines
      invariant after == StmtsLowered(stmts[..j], locals, d).locals
      invariant w.indent == d
    {
      ghost var prev := StmtsLowered(stmts[..j], locals, d);
      after := GenStmt(w, stmts[j], after);
      AppendAssoc(old(w.lines), prev.lines, [Line(d, StmtLine(stmts[j], prev.locals).0)]);
      StmtsLoweredSnoc(stmts, j, locals, d);
    }
    assert stmts[..|stmts|] == stmts;
  }

  /** `gen_body`: writes each structure in order and returns the local set after the last one. */
  method GenBody(w: Writer, body: seq<Struct>, locals: set<string>) returns (after: set<string>)
    requires Ready(w)
    modifies w
    ensures Ready(w) && w.lines == old(w.lines) + BodyLowered(body, locals, old(w.indent)).lines
    ensures w.indent == old(w.indent)
    ensures after == BodyLowered(body, locals, old(w.indent)).locals
    decreases body, 0
  {
    var depth := w.indent;
    after := locals;
    for i := 0 to |body|
      invariant Ready(w) && w.lines == old(w.lines) + BodyLowered(body[..i], locals, depth).lines
      invariant after == BodyLowered(body[..i], locals, depth).locals
      invariant w.indent == depth
    {
      ghost var prev := BodyLowered(body[..i], locals, depth);
      ghost var last := StructLowered(body[i], after, depth);
      if body[i].Control? {
        // a control construct leaves the caller's set as it was
        GenControl(w, body[i], after);
        ControlLowered(body[i], after, depth,
          if body[i].ifCond.Some? then Some(ExprAs(Boolean, body[i].ifCond.value, after, false)) else None);
      } else {
        after := GenBlock(w, body[i], after);
      }
      AppendAssoc(old(w.lines), prev.lines, last.lines);
      BodyLoweredSnoc(body, i, locals, depth);
    }
    assert body[..|body|] == body;
  }

  /** The `Struct::Control` arm of `gen_body`. */
  method GenControl(w: Writer, s: Struct, locals: set<string>)
    requires s.Control? && Ready(w)
    modifies w
    ensures Ready(w) && w.lines == old(w.lines) + StructLowered(s, locals, old(w.indent)).lines
    ensures w.indent == old(w.indent)
    decreases s, 3
  {
    var depth := w.indent;
    ghost var l := w.lines;
    var test: Option<string> := None;
    if s.ifCond.Some? {
      test := Some(ExprAs(Boolean, s.ifCond.value, locals, false));
      PutLine(w, "if " + test.value + " {");
      w.Indent();
    } else {
      assert w.lines + [] == w.lines;
    }
    assert w.lines == l + GuardOpen(test, depth) && w.indent == GuardedDepth(test, depth);
    ghost var loop := LoopLines(s, locals, w.indent);
    GenInfo(w, s.info);
    GenLoop(w, s, locals);
    CloseIf(w, test.Some?, depth);
    ControlWrites(l, test, s.info, loop, depth);
    ControlLowered(s, locals, depth, test);
  }

  /** The `match &ctrl.while_cond` of the control arm: a delay, a loop, or the body once. */
  method GenLoop(w: Writer, s: Struct, locals: set<string>)
    requires s.Control? && Ready(w)
    modifies w
    ensures Ready(w) && w.lines == old(w.lines) + LoopLines(s, locals, old(w.indent))
    ensures w.indent == old(w.indent)
    decreases s, 2
  {
    if IsDelayLoop(s.whileCond) {
      // pure delay loop
      PutLine(w, SleepLine(s.timeout));
    } else if s.whileCond.Some? {
      GenWhile(w, s, locals);
    } else {
      // no loop; the body works on a clone of the local set
      var _ := GenBody(w, s.body, locals);
    }
  }

  /** A genuine `while` loop, scoped in a block with a timeout guard when the node has a timeout. */
  method GenWhile(w: Writer, s: Struct, locals: set<string>)
    requires s.Control? && s.whileCond.Some? && !IsDelayLoop(s.whileCond) && Ready(w)
    modifies w
    ensures Ready(w) && w.lines == old(w.lines) + LoopLines(s, locals, old(w.indent))
    ensures w.indent == old(w.indent)
    decreases s, 1
  {
    var d := w.indent;
    ghost var l := w.lines;
    OpenTimeout(w, s.timeout);
    ghost var opening := w.lines;
    GenWhileBlock(w, s, locals, s.timeout.Some?);
    ghost var looping := w.lines;
    CloseIf(w, s.timeout.Some?, d);
    WhileWrites(l, opening, looping, w.lines, ExprAs(Boolean, s.whileCond.value, locals, false), s.timeout,
                BodyLowered(s.body, locals, WhileDepth(s.timeout, d) + 1).lines, d);
  }

  /** The block that scopes the timeout guard of a loop, when it has a timeout. */
  method OpenTimeout(w: Writer, timeout: Option<u64>)
    requires Ready(w)
    modifies w
    ensures Ready(w) && w.lines == old(w.lines) + TimeoutOpen(timeout, old(w.indent))
    ensures w.indent == WhileDepth(timeout, old(w.indent))
  {
    ghost var l := w.lines;
    ghost var d := w.indent;
    if timeout.Some? {
      PutLine(w, "{");
      w.Indent();
      PutLine(w, TimeoutLine(timeout.value));
      AppendAssoc(l, [Line(d, "{")], [Line(d + 1, TimeoutLine(timeout.value))]);
    } else {
      assert w.lines + [] == w.lines;
    }
  }

  /** The `while` statement of a genuine loop; its nested body works on a clone of the local set. */
  method GenWhileBlock(w: Writer, s: Struct, locals: set<string>, check: bool)
    requires s.Control? && s.whileCond.Some? && Ready(w)
    modifies w
    ensures Ready(w)
    ensures w.lines == old(w.lines)
                       + WhileBlock(ExprAs(Boolean, s.whileCond.value, locals, false),
                                    BodyLowered(s.body, locals, old(w.indent) + 1).lines, check, old(w.indent))
    ensures w.indent == old(w.indent)
    decreases s, 0
  {
    ghost var l := w.lines;
    ghost var d := w.indent;
    var cond := ExprAs(Boolean, s.whileCond.value, locals, false);
    PutLine(w, "while " + cond + " {");
    w.Indent();
    ghost var inner := BodyLowered(s.body, locals, d + 1).lines;
    var _ := GenBody(w, s.body, locals);
    PutIf(w, check, "timeout.check();");
    w.Outdent();
    assert w.indent == d;
    PutLine(w, "}");
    WhileBlockWrites(l, cond, inner, check, d);
  }

  /** The `Struct::Block` arm of `gen_body`: its statements share and extend the caller's set. */
  method GenBlock(w: Writer, s: Struct, locals: set<string>) returns (after: set<string>)
    requires s.Block? && Ready(w)
    modifies w
    ensures Ready(w) && w.lines == old(w.lines) + StructLowered(s, locals, old(w.indent)).lines
    ensures w.indent == old(w.indent)
    ensures after == StructLowered(s, locals, old(w.indent)).locals
  {
    var depth := w.indent;
    ghost var l := w.lines;
    GenInfo(w, s.info);
    ghost var l' := w.lines;
    if s.atomic {
      PutLine(w, "// atomic");
      PutLine(w, "{");
      AppendAssoc(l', [Line(depth, "// atomic")], [Line(depth, "{")]);
      w.Indent();
    } else {
      assert w.lines + [] == w.lines;
    }
    assert w.lines == l' + AtomicOpen(s.atomic, depth);
    assert w.indent == if s.atomic then depth + 1 else depth;
    ghost var inner := StmtsLowered(s.stmts, locals, w.indent);
    after := GenStmts(w, s.stmts, locals);
    CloseIf(w, s.atomic, depth);
    BlockWrites(l, s.info, s.atomic, inner.lines, depth);
    BlockLowered(s, locals, depth);
  }

  /** The body of `gen_sequences`' loop: the function for one named sequence. */
  method GenSequence(w: Writer, name: string, sq: Sequence)
    requires Ready(w) && w.indent == 0
    modifies w
    ensures Ready(w) && w.lines == old(w.lines) + SequenceLines(name, sq)
    ensures w.indent == 0
  {
    ghost var l := w.lines;
    PutLine(w, "fn s_" + name + "(ctx) {");
    w.Indent();
    assert w.indent == 1;
    PutLine(w, "let " + ResultVar + " = 0;");
    // the result variable is the only local at the start
    var _ := GenBody(w, sq.body, {ResultVar});
    PutLine(w, ResultVar);
    w.Outdent();
    assert w.indent == 0;
    PutLine(w, "}");
    PutLine(w, "");
    SequenceWrites(l, name, sq);
  }

  /** `gen_sequences`: one function per sequence, in order, and the text of them all. */
  method GenSequences(seqs: Sequences) returns (text: string)
    ensures text == Render(SequencesLines(seqs))
  {
    var w := new Writer();
    for i := 0 to |seqs|
      invariant Ready(w) && w.lines == SequencesLines(seqs[..i])
      invariant w.indent == 0
    {
      var (name, sq) := seqs[i];
      GenSequence(w, name, sq);
      SequencesLinesSnoc(seqs, i);
    }
    assert seqs[..|seqs|] == seqs;
    text := w.End();
  }
}
