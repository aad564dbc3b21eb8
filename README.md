# cmsis2rhai generator, modelled in Dafny

cmsis2rhai turns the debug sequences of a CMSIS pack into a Rhai script.
Each sequence becomes a script function `fn s_<name>(ctx)`. This project
models the translator in `src/generator.rs`. It takes a sequence tree that
has already been parsed (control nodes, blocks, statements and expressions)
and writes the script text. The model proves what the text is.

The modules follow the source:

- `Ast` holds the tree that the CMSIS parser produces. `u64` values and number styles come from here.
- `Emitter` is the indenting `Writer`, with `buf`, `indent` and `start`
  fields. Its methods update them in place, and `WriteStr` is the
  character loop. The function `Emitted` is the text that loop appends.
  The lemmas prove the loop correct, including un-indenting and
  concatenation. `Line` and `Render` describe output one finished line at
  a time.
- `Numerals` provides the digit renderings behind `{}`, `{:x}` and `{:08x}`, with their parsers.
- `Literals` models `gen_num`. It also models how the runtime reads the emitted literal back:
  - `u64(..)` is a signed 64-bit literal;
  - `u64_big(h, l)` computes `(h << 32) | l`.
- `Resolver` holds the reserved debug variables and `var_path`.
- `Expressions` models `Type`, `gen_expr` and `expr_as` as pure functions.
  `GenExpr` returns the text it writes together with the type it infers.
  `ExprAs` returns only the text, converted to the requested type.
- `Generator` models `gen_stmt`, `gen_body` and `gen_sequences` as
  methods over one shared `Writer`, as the source has them. Each is proved
  against a function that gives the lines it emits and the local-name set
  in force afterwards. `GenSequences` returns exactly `Render` of those
  lines.
- `Shapes` proves what the line functions promise: local scoping, the three loop shapes, the sequence frame and indentation depths.
- `Scenarios` gives concrete trees and the exact lines they produce.

The code has four behaviours a reader may not expect, and the model keeps all of them:

- A `Sequence(..)` call whose arguments are not a single string is not
  reported as an error. The generator writes ` #ERROR# ` in its place and
  carries on (src/generator.rs:266).
- `&&` and `||` render their left operand on both sides (src/generator.rs:364-366). See `LogicRepeatsLeftOperand`.
- Bitwise `BitNot` is written `!` (src/generator.rs:296), the same symbol as logical `Not`. See `BitNotRendersAsNot`.
- Each generated function declares and returns `__Result` (src/generator.rs:105, 110), but it also puts `__Result` in the local set (src/generator.rs:108), so the body reads and writes it as `l___Result` (src/generator.rs:207). No `l___Result` is ever declared, so an assignment to `__Result` in a sequence does not reach the value the function returns. See `ResultAssignmentMissesFrame`.

## Model

| member | source | states |
|---|---|---|
| Emitter.Writer.constructor | src/generator.rs:33-39 | a new writer has an empty buffer, depth 0 and is at the start of a line |
| Emitter.Writer.Indent | src/generator.rs:41-44 | the depth grows by one; buffer and line-start flag are unchanged |
| Emitter.Writer.Outdent | src/generator.rs:46-49 | the depth shrinks by one; buffer and flag are unchanged |
| Emitter.Writer.End | src/generator.rs:51-53 | returns the accumulated buffer |
| Emitter.Writer.WriteStr | src/generator.rs:57-77 | appends `Emitted(indent, start, s)`: every character in order, with the indentation inserted before each line start; the flag is true exactly when `s` ended on a newline (or is empty and it was true) |
| Emitter.Writer.PutChar | src/generator.rs:59-73 | one round of the loop: a newline is copied and sets the flag; any other character is preceded by `4*indent` spaces when the flag was set, then copied |
| Emitter.Writer.WriteLn | src/generator.rs:57-77 | `writeln!`: appends the emitted text of `s` plus a newline and leaves the writer at a line start |
| Emitter.EmittedLonger | src/generator.rs:57-77 | `Emitted` is the text one `write_str` call appends, defined character by character as the loop does; a length bound: the appended text is at least as long as the written text (that the characters themselves come back is `UnindentEmitted`) |
| Emitter.Indentation | src/generator.rs:66-68 | the indentation at depth `d` is `4*d` characters |
| Emitter.IndentationIsSpaces | src/generator.rs:66-68 | every indentation character is a space |
| Emitter.EmittedAppend | src/generator.rs:57-77 | writing `a` then `b` produces what writing `a + b` produces, the second call starting from the flag the first left |
| Emitter.EmittedFlat | src/generator.rs:65-73 | at depth 0 the writer copies the text unchanged |
| Emitter.EmittedMidLine | src/generator.rs:65-73 | in the middle of a line, text without newlines is copied unchanged |
| Emitter.EmittedLine | src/generator.rs:57-77 | a line written from a line start gets its indentation, except an empty line, which gets none |
| Emitter.UnindentEmitted | src/generator.rs:57-77 | removing the inserted indentation recovers exactly the text that was written |
| Emitter.RenderLine | src/generator.rs:57-77 | a line without newlines renders as indentation, text and newline; an empty line as the newline alone |
| Emitter.RenderAppend | src/generator.rs:57-77 | rendering distributes over concatenation of line lists |
| Numerals.Digits | src/generator.rs:405-408 | the `{}` / `{:x}` rendering is non-empty, made of digits of the base, and has no leading zero |
| Numerals.DigitsRoundTrip | src/generator.rs:405-408 | parsing the rendered digits gives back the number |
| Numerals.DigitsValue | src/generator.rs:405-408 | the rendered digits denote the number |
| Numerals.PaddedDigits | src/generator.rs:401 | `{:08x}` has exactly the width asked for and only hex digits |
| Numerals.PaddedHexValue | src/generator.rs:401 | the padded rendering of a number below `16^width` denotes that number |
| Literals.HighWord | src/generator.rs:398 | `(v >> 32) as u32` is below 2^32 |
| Literals.LowWord | src/generator.rs:399 | `v as u32` is below 2^32 |
| Literals.GenNum | src/generator.rs:396-414 | the literal has the form `u64..(..)`, and it is the split `u64_big` form exactly when `v >= 0x8000_0000_0000_0000` |
| Literals.U64Big | src/main.rs:42 | the host's `(high as u64) << 32 \| (low as u64)` on non-negative arguments, always below 2^64 |
| Literals.U64BigAdds | src/main.rs:42 | on two 32-bit words the shift-and-or equals `high * 2^32 + low` |
| Literals.ReadLiteral | src/main.rs:42 | the value the runtime reads from a `u64(..)` or `u64_big(..)` text, with the form it was written in; every value read fits in 64 bits, and a plain literal is at most `i64::MAX` |
| Literals.ShiftLeft64 | src/main.rs:42 | `<< 32` on `u64` stays below 2^64 |
| Literals.SplitRecombines | src/generator.rs:397-401 | the host's `(high << 32) \| low` on the two emitted halves gives back `v` |
| Literals.PaddedWord | src/generator.rs:401 | each 8-digit hex half reads back at runtime as the half itself |
| Literals.PlainRuntimeInt | src/generator.rs:403-410 | a decimal or hex rendering of a value up to `i64::MAX` reads back as the value |
| Literals.LiteralRoundTrip | src/generator.rs:396-414 | reading the emitted literal gives back `v`, in decimal or hex as the style asks below 2^63 and in split form from 2^63 on |
| Literals.GenNumInjective | src/generator.rs:396-414 | distinct values never get the same literal text |
| Resolver.ResultNotReserved | src/generator.rs:9-23 | `__Result` is not reserved, so inside a generated function, where it is in the local set, a use of it resolves to `l___Result`, a name the frame never declares |
| Resolver.VarPath | src/generator.rs:203-211 | `var_path`: its own contract only bounds the length (weaker, admitted under Left out); what it computes is stated by `VarPathRoundTrip` and `VarPathInjective` |
| Resolver.StorageOf | src/generator.rs:203-211 | each name falls in exactly one class: reserved debug variable first, then declared local, otherwise persistent |
| Resolver.VarPathRoundTrip | src/generator.rs:203-211 | the access path decodes to the name and to the class the resolution order picks, so a reserved name stays `ctx.cmsis<name>` even when declared local |
| Resolver.VarPathInjective | src/generator.rs:203-211 | two names with the same access path are the same name in the same class |
| Expressions.GenExpr | src/generator.rs:249-388 | the type reported is the natural type: boolean for `!`, comparisons, `&&` and `\|\|`, numeric for everything else; the text is never empty |
| Expressions.BinOpTable | src/generator.rs:324-343 | the symbol and style of each binary operator: the logic style exactly for `&&`/`\|\|`, a non-plain style exactly for the operators that yield booleans, and a symbol of one or two characters |
| Expressions.BinOpSymbolsDistinct | src/generator.rs:324-343 | no two binary operators share a symbol |
| Expressions.UnOpText | src/generator.rs:295-300 | the symbol of a numeric unary operator: empty exactly for `Pos`, otherwise one character |
| Expressions.BitNotRendersAsNot | src/generator.rs:289-313 | on a boolean operand, outside nesting, `BitNot` and `Not` give the same text with different types |
| Expressions.GenArgs | src/generator.rs:274-283 | the argument list from index `i` on is empty exactly when no argument is left, and every argument after the first is preceded by `, ` |
| Expressions.GenArgsJoins | src/generator.rs:274-283 | from index `i` on, the arguments' texts in order, each expression at its own type and each string in double quotes, joined by `, `, after a separator exactly when `i` is neither the first index nor the end |
| Expressions.HostCallText | src/generator.rs:271-288 | a call of any function other than `Sequence` is `ctx.cmsis_<func>(` then every argument's text in order, joined by `, `, then `)` |
| Expressions.ExprAs | src/generator.rs:234-247 | the text is left as is when the natural type is the one requested; otherwise it is wrapped in `bool(..)` or `u64(..)` |
| Expressions.CoercionOnlyOnMismatch | src/generator.rs:239-246 | the text is unchanged if and only if the natural type matches |
| Expressions.NestingParenthesisesOperatorsOnly | src/generator.rs:345-374 | nesting adds one pair of parentheses around unary and binary operators and changes nothing else |
| Expressions.LogicRepeatsLeftOperand | src/generator.rs:360-366 | `&&` and `\|\|` render `bool` of the left operand on both sides; the right operand has no influence |
| Expressions.LocalsMatterOnlyOnNames | src/generator.rs:249-388 | two local sets that agree on the names an expression mentions give the same text and type |
| Expressions.ArgsMatterOnlyOnNames | src/generator.rs:274-283 | the same holds for the argument list of a host call |
| Generator.StmtLine | src/generator.rs:213-232 | the line `gen_stmt` emits ends with `;`, and the locals change only for `Declare`, which adds its name |
| Generator.PutLine | src/generator.rs:102 | one `writeln!` at a line start adds one line at the current depth to the output |
| Generator.GenInfo | src/generator.rs:129-131 | the `ctx.info("..");` line is emitted exactly when there is an info string |
| Generator.PutIf | src/generator.rs:153-155 | an optional line is emitted exactly when its condition holds |
| Generator.CloseIf | src/generator.rs:172-175 | an optional scope is closed by outdenting and emitting `}` at the outer depth |
| Generator.GenStmt | src/generator.rs:213-232 | appends the statement's line at the current depth; `Declare` adds its name to the locals before its initialiser is rendered; the depth is unchanged |
| Generator.GenStmts | src/generator.rs:188-190 | the statements of a block, in order, all at one depth, threading one shared local set |
| Generator.GenBody | src/generator.rs:120-201 | appends the lines of each structure in order and returns the local set after the last |
| Generator.GenControl | src/generator.rs:123-176 | optional `if` guard, optional info line, loop lowering, closing brace; the caller's locals are unchanged |
| Generator.GenLoop | src/generator.rs:133-170 | the three loop lowerings: delay, `while` (with or without a timeout), plain body |
| Generator.GenWhile | src/generator.rs:139-164 | appends `LoopLines` for a condition that is not a pure delay, which is a genuine loop inside a timeout scope exactly when there is a timeout, its body on a clone of the locals one level deeper |
| Generator.OpenTimeout | src/generator.rs:142-146 | with a timeout, opens a scope and allocates the timeout handle one level in |
| Generator.GenWhileBlock | src/generator.rs:148-158 | the `while cond {` line, the body one level deeper, the optional `timeout.check();`, and `}` |
| Generator.GenBlock | src/generator.rs:177-196 | optional info line, optional atomic scope, the statements on the shared local set |
| Generator.GenSequence | src/generator.rs:101-115 | the function frame of one sequence around its body at depth 1; depth returns to 0 |
| Generator.GenSequences | src/generator.rs:80-118 | the returned text is exactly the rendering of every sequence's lines, in order |
| Shapes.StmtsLocals | src/generator.rs:215-218 | after a block's statements the locals are the old ones plus every declared name |
| Shapes.BodyLocals | src/generator.rs:120-201 | after a body the locals are the old ones plus the names declared directly in its blocks, and never those declared inside control nodes |
| Shapes.StorageAfterBody | src/generator.rs:151 | after a body a name is local exactly when it was local or is declared in one of the body's own blocks, unless it is a reserved name |
| Shapes.ControlKeepsLocals | src/generator.rs:168 | a control node leaves the caller's locals as they were |
| Shapes.DeclareSeesItself | src/generator.rs:216-218 | `let x = x` reads the new local `l_x`, since the name is inserted before its initialiser is rendered |
| Shapes.StmtsDepths | src/generator.rs:188-190 | a block emits one line per statement and none shallower than its depth |
| Shapes.BodyDepths | src/generator.rs:120-201 | no line of a body is shallower than the depth it starts at |
| Shapes.StructDepths | src/generator.rs:122-197 | no line of a structure is shallower than its depth |
| Shapes.LoopDepths | src/generator.rs:133-170 | no line of a loop lowering is shallower than its depth |
| Shapes.DelayLoopShape | src/generator.rs:134-138 | a positive literal condition gives the single line `ctx.sleep(t)` (`t` is 0 without a timeout), whatever the body |
| Shapes.TimeoutLoopShape | src/generator.rs:142-163 | `{`, the timeout handle, the `while`, the body two levels in, `timeout.check();`, and two closing braces |
| Shapes.PlainLoopShape | src/generator.rs:148-158 | without a timeout the loop is `while cond {`, the body one level in, and `}` |
| Shapes.NoLoopShape | src/generator.rs:165-169 | without a loop condition the body is emitted at the node's own depth |
| Shapes.SequenceFrame | src/generator.rs:101-115 | each sequence is `fn s_<name>(ctx) {`, `let __Result = 0;`, its body at depth at least 1, `__Result`, `}` and a blank line |
| Scenarios.Delay1Lines | src/generator.rs:101-115 | a sequence made of one delay loop of 500 gives the six frame lines around `ctx.sleep(500);` |
| Scenarios.DelayNotLoop | src/generator.rs:134-137 | a control node looping on `5` with a timeout of 200 emits only `ctx.sleep(200);`, whatever its body |
| Scenarios.TimeoutLoopLines | src/generator.rs:142-163 | a control node with a timed loop on `x` emits its six exact lines, with `x` coerced by `bool(..)` |
| Scenarios.ControlScopeLines | src/generator.rs:151 | a name declared in a control body is `l_n` inside it and `ctx.vars["n"]` after it |
| Scenarios.AtomicBlockLines | src/generator.rs:182-195 | an atomic block wraps its two statements, in order and one level in, in `// atomic` and a scope |
| Scenarios.DeclareThenAssignLines | src/generator.rs:215-224 | a hexadecimal declaration, then an assignment that reads the new local |
| Scenarios.HostCallLine | src/generator.rs:271-288 | `Write32(a, "s")` renders as `ctx.cmsis_Write32(ctx.vars["a"], "s")` |
| Scenarios.SequenceCallText | src/generator.rs:263-270 | `Sequence("Reset")` renders as the call `s_Reset(ctx)` |
| Scenarios.SequenceCallError | src/generator.rs:263-270 | a `Sequence` call on an expression argument renders as ` #ERROR# ` |
| Scenarios.CondText | src/generator.rs:378-386 | a conditional renders as `if bool(..) {`, the first branch with no space before it, ` } else { `, the second branch, and ` }`, with numeric type |
| Scenarios.NegText | src/generator.rs:294-314 | a nested negation of a persistent variable renders as `(-ctx.vars["x"])`, with numeric type |
| Scenarios.CompareText | src/generator.rs:315-377 | `a < 2` on a local `a` is `l_a < u64(2)` of boolean type, and as a number it is wrapped in `u64(..)` |
| Scenarios.ResultAssignmentMissesFrame | src/generator.rs:100-114 | a sequence that assigns `__Result` writes `l___Result = u64(1);` between `let __Result = 0;` and the returned `__Result` |

## Left out

- I/O and the runtime: parsing the pack file, building the Rhai engine, host functions and timing are in `src/main.rs` and are not part of this model. Only the `u64_big` formula (src/main.rs:42) is modelled, as the reading side of the literal round trip.
- What the emitted script means when Rhai runs it: the properties are about the text produced.
- The CMSIS XML parser: the model starts from the tree it produces.
- `fmt::Error`: the writer never fails, so every operation is total and the `?` propagation is dropped.
- `Sequences` is the parser's map of named sequences. Its order is the iteration order of that map. The model takes the pairs as a list, in whatever order they arrive.
- `writeln!` with format arguments writes its pieces one after the other. The model writes the formatted string in one call, which `EmittedAppend` shows gives the same text.
- `Writer.lines` is a ghost record of the lines written so far. The source has no such field.
- The commented-out context generator (src/generator.rs:83-99, 416-418) is not modelled, because it is dead code.
- The `unreachable!()` arm (src/generator.rs:299) is not modelled. It cannot be reached, because the model matches the unary operators exhaustively.
- Emitter.Writer.Outdent: requires a positive depth. The source's `usize` subtraction would panic or wrap below zero, and the generator never does this.
- Resolver.VarPath: its own contract only bounds the length. What it computes is stated through `ParsePath` in `VarPathRoundTrip` and `VarPathInjective`.
- Expressions.GenExpr: its own contract states only the type and that the text is not empty. Some properties of the text are stated elsewhere: the coercion (`ExprAs`, `CoercionOnlyOnMismatch`), the parentheses (`NestingParenthesisesOperatorsOnly`), the logic operators (`LogicRepeatsLeftOperand`, `BitNotRendersAsNot`) and the local set (`LocalsMatterOnlyOnNames`). Host calls are stated in general by `HostCallText`. The texts of `Sequence(..)` calls, `Cond`, numeric unaries, and plain or comparison binaries are given by the function's body, with one concrete scenario each (`SequenceCallText`, `SequenceCallError`, `CondText`, `NegText`, `CompareText`).
- `ctx.info`, function names and the strings of host calls are copied without escaping, as the source does. The model does not prove that the result is valid Rhai.
