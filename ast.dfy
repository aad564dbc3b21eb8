/**
 * The debug-sequence tree the generator consumes. It is produced by the
 * CMSIS-Pack parser, which is not part of this model; its shape is the one
 * the generator matches on.
 */
module Ast {
  import opened Options

  /** Unsigned 64-bit integers, the type of numeric literals and timeouts. */
  type u64 = x: int | 0 <= x < 0x1_0000_0000_0000_0000

  /** The radix a literal was written in. */
  datatype NumStyle = Dec | Hex

  datatype UnOp = Not | BitNot | Pos | Neg

  datatype BinOp =
    | Add | Sub | Mul | Div | Rem
    | BitXor | BitAnd | BitOr | Shr | Shl
    | Lt | Le | Ge | Gt | Eq | Ne
    | And | Or

  /** A call argument: a sub-expression or a literal string. */
  datatype Arg = ExprArg(expr: Expr) | StringArg(text: string)

  datatype Expr =
    | Num(value: u64, style: NumStyle)
    | Var(name: string)
    | Call(func: string, args: seq<Arg>)
    | Unary(op: UnOp, operand: Expr)
    | Binary(binop: BinOp, lhs: Expr, rhs: Expr)
    | Cond(test: Expr, ifTrue: Expr, ifFalse: Expr)

  datatype Stmt =
    | Declare(name: string, value: Expr)
    | Assign(name: string, value: Expr)
    | ExprStmt(expr: Expr)

  /** A control node (guard, loop, timeout, nested body) or a statement block. */
  datatype Struct =
    | Control(ifCond: Option<Expr>, info: Option<string>, whileCond: Option<Expr>,
              timeout: Option<u64>, body: seq<Struct>)
    | Block(info: Option<string>, atomic: bool, stmts: seq<Stmt>)

  datatype Sequence = Sequence(body: seq<Struct>)

  /** Named sequences in the order the input map iterates them. */
  type Sequences = seq<(string, Sequence)>
}
