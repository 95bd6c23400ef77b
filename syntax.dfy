/**
  Tokens and syntax trees of the script language.

  The tokenizer is not part of this model: the parser and the tools built on it
  take the token sequence as their input.
 */
module Syntax {

  datatype Option<+T> = None | Some(value: T)

  datatype Result<+T, +E> = Success(value: T) | Failure(error: E)

  /** A token as the tokenizer hands it over: its kind ("number", "identifier",
      "parenthesis", ...) and its text. */
  datatype Token = Token(kind: string, value: string)

  /** What a call node names as its callee. The parser's `name(args)` form stores
      only a name and no callee node (`NameOnly`); `obj.prop(args)` stores a
      property node as callee (`Via`). */
  datatype Callee = NameOnly(name: string) | Via(node: Node)

  /** The iterable of a `for`: a bare identifier is kept as its name string,
      anything else as an expression node. */
  datatype Iterable = RawName(name: string) | Expr(node: Node)

  /** Syntax tree nodes. `Block.last` is the block's `value` field: its last
      statement, if any. `If.elseBranch` is absent when the node has no `else`. */
  datatype Node =
    | NumLit(n: int)
    | StrLit(s: string)
    | BoolLit(b: bool)
    | NullLit
    | Ident(name: string)
    | Binary(op: string, left: Node, right: Node)
    | ArrayLit(elems: seq<Node>)
    | Index(obj: Node, index: Node)
    | Property(obj: Node, prop: string)
    | Assignment(name: string, expr: Node)
    | FunctionLit(params: seq<string>, body: Node)
    | Call(callee: Callee, args: seq<Node>)
    | Block(stmts: seq<Node>, last: Option<Node>)
    | If(cond: Node, thenBranch: Node, elseBranch: Option<Node>)
    | For(item: string, indexName: Option<string>, iterable: Iterable, body: Node)
    | Return(expr: Node)

  /** The last element of a statement list, as `statements[length - 1] ?? null`. */
  function LastOf(ss: seq<Node>): (r: Option<Node>)
    ensures r.None? <==> ss == []
    ensures r.Some? ==> r.value == ss[|ss| - 1]
  {
    if ss == [] then None else Some(ss[|ss| - 1])
  }

  /** A size measure that the evaluator's termination arguments use. */
  function Size(n: Node): nat
  {
    match n
    case NumLit(_) => 1
    case StrLit(_) => 1
    case BoolLit(_) => 1
    case NullLit => 1
    case Ident(_) => 1
    case Binary(_, l, r) => 1 + Size(l) + Size(r)
    case ArrayLit(es) => 1 + SizeAll(es)
    case Index(o, i) => 1 + Size(o) + Size(i)
    case Property(o, _) => 1 + Size(o)
    case Assignment(_, e) => 1 + Size(e)
    case FunctionLit(_, b) => 1 + Size(b)
    case Call(c, args) => 1 + CalleeSize(c) + SizeAll(args)
    case Block(ss, _) => 1 + SizeAll(ss)
    case If(c, t, e) => 1 + Size(c) + Size(t) + (if e.Some? then Size(e.value) else 0)
    case For(_, _, it, b) => 1 + (if it.Expr? then Size(it.node) else 0) + Size(b)
    case Return(e) => 1 + Size(e)
  }

  function CalleeSize(c: Callee): nat
  {
    match c
    case NameOnly(_) => 0
    case Via(n) => Size(n)
  }

  function SizeAll(ns: seq<Node>): nat
  {
    if ns == [] then 0 else Size(ns[0]) + SizeAll(ns[1..])
  }
}
