/**
 * Name resolution (`var_path` and `DEBUG_ACCESS_VARIABLES` in
 * src/generator.rs): a name is a debug-access pseudo-variable, a declared
 * local, or an entry of the persistent variable map, in that order.
 */
module Resolver {
  import opened Options

  /** The debug-access variables the debugger provides on the context. */
  const DebugAccessVariables: set<string> := {
    "__protocol", "__connection", "__dp", "__ap", "__apid", "__traceout",
    "__errorcontrol", "__FlashOp", "__FlashAddr", "__FlashLen", "__FlashArg"
  }

  /** The generated functions' result variable is not reserved, so it resolves as a local. */
  lemma ResultNotReserved()
    ensures "__Result" !in DebugAccessVariables
  {
  }

  /** The three storage classes a name can denote. */
  datatype Storage = Session | Local | Persistent

  /** The class a name resolves to: first match wins, no error case. */
  function StorageOf(name: string, locals: set<string>): (c: Storage)
    ensures c == Session <==> name in DebugAccessVariables
    ensures c == Local <==> name !in DebugAccessVariables && name in locals
    ensures c == Persistent <==> name !in DebugAccessVariables && name !in locals
  {
    if name in DebugAccessVariables then Session
    else if name in locals then Local
    else Persistent
  }

  /** The script text that accesses `name`. */
  function VarPath(name: string, locals: set<string>): (r: string)
    ensures |r| >= 2
  {
    if name in DebugAccessVariables then "ctx.cmsis" + name
    else if name in locals then "l_" + name
    else "ctx.vars[\"" + name + "\"]"
  }

  /** The inverse of `VarPath`: the class and the name an access path denotes. */
  function ParsePath(path: string): Option<(Storage, string)>
  {
    if |path| >= 9 && path[..9] == "ctx.cmsis" then Some((Session, path[9..]))
    else if |path| >= 2 && path[..2] == "l_" then Some((Local, path[2..]))
    else if |path| >= 12 && path[..10] == "ctx.vars[\"" && path[|path| - 2..] == "\"]"
    then Some((Persistent, path[10..|path| - 2]))
    else None
  }

  /** Every access path records its storage class and its name. */
  lemma VarPathRoundTrip(name: string, locals: set<string>)
    ensures ParsePath(VarPath(name, locals)) == Some((StorageOf(name, locals), name))
  {
    var p := VarPath(name, locals);
    match StorageOf(name, locals)
    case Session =>
      assert p[..9] == "ctx.cmsis" && p[9..] == name;
    case Local =>
      assert p[..2] == "l_" && p[2..] == name;
      assert |p| >= 9 ==> p[..9] != "ctx.cmsis" by { assert p[0] == 'l'; }
    case Persistent =>
      assert p[..10] == "ctx.vars[\"" && p[10..|p| - 2] == name && p[|p| - 2..] == "\"]";
      assert p[..9] != "ctx.cmsis" by { assert p[4] == 'v' && "ctx.cmsis"[4] == 'c'; }
      assert p[..2] != "l_" by { assert p[0] == 'c'; }
  }

  /** Distinct names never share an access path, whatever the local sets. */
  lemma VarPathInjective(a: string, la: set<string>, b: string, lb: set<string>)
    requires VarPath(a, la) == VarPath(b, lb)
    ensures a == b && StorageOf(a, la) == StorageOf(b, lb)
  {
    VarPathRoundTrip(a, la);
    VarPathRoundTrip(b, lb);
  }
}
