/**
  The recursive-descent grammar of src/parser.js as pure functions of the token
  sequence and a cursor position. Each function returns the node it builds and
  the position after it, or the error that aborts the parse. The `Parser`
  class in module Parsing runs the same algorithm with a mutable cursor and is
  proved to agree with these functions.

  Termination: every call either happens at a strictly larger position or goes
  down the rank given as the second component of each `decreases` clause.
 */
module Grammar {
  import opened Syntax

  datatype ParseError =
    | Expected(want: Option<string>, got: Option<string>)  // `consume` mismatch or end of input
    | UnexpectedToken(token: Token)                        // `parsePrimary` cannot start here
    | NoToken                                              // a property read off the missing token

  datatype Step<+T> = Ok(value: T, next: nat) | Fail(error: ParseError)

  /** `consume(type, value)`: an empty type and an absent value are not checked. */
  function ConsumeAt(toks: seq<Token>, p: nat, kind: string, want: Option<string>): (r: Step<Token>)
    requires p <= |toks|
    ensures r.Ok? <==> p < |toks| && (kind == "" || toks[p].kind == kind)
                        && (want.None? || toks[p].value == want.value)
    ensures r.Ok? ==> r.value == toks[p] && r.next == p + 1
  {
    if p == |toks| || (kind != "" && toks[p].kind != kind) || (want.Some? && toks[p].value != want.value) then
      Fail(Expected(want, if p < |toks| then Some(toks[p].value) else None))
    else
      Ok(toks[p], p + 1)
  }

  predicate IsAt(toks: seq<Token>, p: nat, kind: string, value: string)
  {
    p < |toks| && toks[p].kind == kind && toks[p].value == value
  }

  /** `parse`: top-level statements until the input is used up; stray semicolons are skipped. */
  function ProgramOf(toks: seq<Token>): (r: Step<seq<Node>>)
    ensures r.Ok? ==> r.next == |toks|
  {
    StatementsFrom(toks, 0, [])
  }

  function StatementsFrom(toks: seq<Token>, p: nat, acc: seq<Node>): (r: Step<seq<Node>>)
    requires p <= |toks|
    ensures r.Ok? ==> r.next == |toks|
    ensures r.Ok? ==> acc <= r.value && |r.value| <= |acc| + (|toks| - p)
    decreases |toks| - p, 7
  {
    if p == |toks| then Ok(acc, p)
    else if toks[p].kind == "semicolon" then StatementsFrom(toks, p + 1, acc)
    else
      var s := ExpressionAt(toks, p);
      if s.Fail? then Fail(s.error) else StatementsFrom(toks, s.next, acc + [s.value])
  }

  /** `parseExpression`: assignment by one-token lookahead, then `if`, `for`, comparison. */
  function ExpressionAt(toks: seq<Token>, p: nat): (r: Step<Node>)
    requires p <= |toks|
    ensures r.Ok? ==> p < r.next <= |toks|
    decreases |toks| - p, 6
  {
    if p == |toks| then Fail(NoToken)
    else if toks[p].kind == "identifier" && p + 1 < |toks| && toks[p + 1].value == "=" then AssignmentAt(toks, p)
    else if toks[p].kind == "keyword" && toks[p].value == "if" then IfAt(toks, p)
    else if toks[p].kind == "keyword" && toks[p].value == "for" then ForAt(toks, p)
    else ComparisonAt(toks, p)
  }

  /** `parseAssignment`: `name = expr`, or a function definition when `(` follows `=`. */
  function AssignmentAt(toks: seq<Token>, p: nat): (r: Step<Node>)
    requires p <= |toks|
    ensures r.Ok? ==> p < r.next <= |toks|
    ensures r.Ok? ==> r.value.Assignment? && r.value.name == toks[p].value
    ensures r.Ok? && IsAt(toks, p + 2, "parenthesis", "(") ==> r.value.expr.FunctionLit?
    decreases |toks| - p, 5
  {
    var id := ConsumeAt(toks, p, "identifier", None);
    if id.Fail? then Fail(id.error) else
    var eq := ConsumeAt(toks, id.next, "operator", Some("="));
    if eq.Fail? then Fail(eq.error)
    else if IsAt(toks, eq.next, "parenthesis", "(") then FunctionDefinitionAt(toks, eq.next, id.value.value)
    else
      var e := ExpressionAt(toks, eq.next);
      if e.Fail? then Fail(e.error) else Ok(Assignment(id.value.value, e.value), e.next)
  }

  /** `parseFunctionDefinition`: `(p1, ..., pn) { ... }` after `name =`. */
  function FunctionDefinitionAt(toks: seq<Token>, p: nat, name: string): (r: Step<Node>)
    requires p <= |toks|
    ensures r.Ok? ==> p < r.next <= |toks|
    ensures r.Ok? ==> r.value.Assignment? && r.value.name == name
                      && r.value.expr.FunctionLit? && r.value.expr.body.Block?
    decreases |toks| - p, 0
  {
    var open := ConsumeAt(toks, p, "parenthesis", Some("("));
    if open.Fail? then Fail(open.error) else
    var ps := ParamListFrom(toks, open.next, []);
    if ps.Fail? then Fail(ps.error) else
    var close := ConsumeAt(toks, ps.next, "parenthesis", Some(")"));
    if close.Fail? then Fail(close.error) else
    var body := BlockAt(toks, close.next);
    if body.Fail? then Fail(body.error) else
    Ok(Assignment(name, FunctionLit(ps.value, body.value)), body.next)
  }

  /** The parameter loop of `parseFunctionDefinition`: identifiers separated by commas. */
  function ParamListFrom(toks: seq<Token>, p: nat, acc: seq<string>): (r: Step<seq<string>>)
    requires p <= |toks|
    ensures r.Ok? ==> p <= r.next <= |toks|
    decreases |toks| - p, 0
  {
    if p < |toks| && toks[p].value != ")" then
      var id := ConsumeAt(toks, p, "identifier", None);
      if id.Fail? then Fail(id.error)
      else if id.next == |toks| then Fail(NoToken)
      else if toks[id.next].value == "," then
        var comma := ConsumeAt(toks, id.next, "comma", None);
        if comma.Fail? then Fail(comma.error) else ParamListFrom(toks, comma.next, acc + [id.value.value])
      else Ok(acc + [id.value.value], id.next)
    else Ok(acc, p)
  }

  /** The argument loop shared by calls and array literals: expressions separated
      by commas, up to (not including) the token whose text is `close`. */
  function ArgListFrom(toks: seq<Token>, p: nat, acc: seq<Node>, close: string): (r: Step<seq<Node>>)
    requires p <= |toks|
    ensures r.Ok? ==> p <= r.next <= |toks|
    decreases |toks| - p, 7
  {
    if p < |toks| && toks[p].value != close then
      var e := ExpressionAt(toks, p);
      if e.Fail? then Fail(e.error)
      else if e.next == |toks| then Fail(NoToken)
      else if toks[e.next].value == "," then
        var comma := ConsumeAt(toks, e.next, "comma", None);
        if comma.Fail? then Fail(comma.error) else ArgListFrom(toks, comma.next, acc + [e.value], close)
      else Ok(acc + [e.value], e.next)
    else Ok(acc, p)
  }

  /** `parseFunctionCallArgs`: `( args )`. */
  function CallArgsAt(toks: seq<Token>, p: nat): (r: Step<seq<Node>>)
    requires p <= |toks|
    ensures r.Ok? ==> p + 2 <= r.next <= |toks|
    ensures r.Ok? ==> toks[p] == Token("parenthesis", "(") && toks[r.next - 1] == Token("parenthesis", ")")
    decreases |toks| - p, 0
  {
    var open := ConsumeAt(toks, p, "parenthesis", Some("("));
    if open.Fail? then Fail(open.error) else
    var args := ArgListFrom(toks, open.next, [], ")");
    if args.Fail? then Fail(args.error) else
    var close := ConsumeAt(toks, args.next, "parenthesis", Some(")"));
    if close.Fail? then Fail(close.error) else Ok(args.value, close.next)
  }

  /** `parseFunctionCall`: the node carries the name only, no callee node. */
  function FunctionCallAt(toks: seq<Token>, p: nat, name: string): (r: Step<Node>)
    requires p <= |toks|
    ensures r.Ok? ==> p < r.next <= |toks|
    ensures r.Ok? ==> r.value.Call? && r.value.callee == NameOnly(name)
    decreases |toks| - p, 1
  {
    var args := CallArgsAt(toks, p);
    if args.Fail? then Fail(args.error) else Ok(Call(NameOnly(name), args.value), args.next)
  }

  /** `parseBlock`: `{ s1; s2 ... }`, one optional semicolon after each statement. */
  function BlockAt(toks: seq<Token>, p: nat): (r: Step<Node>)
    requires p <= |toks|
    ensures r.Ok? ==> p < r.next <= |toks|
    ensures r.Ok? ==> r.value.Block? && r.value.last == LastOf(r.value.stmts)
    ensures r.Ok? ==> toks[p] == Token("bracket", "{") && toks[r.next - 1] == Token("bracket", "}")
    decreases |toks| - p, 0
  {
    var open := ConsumeAt(toks, p, "bracket", Some("{"));
    if open.Fail? then Fail(open.error) else
    var items := BlockItemsFrom(toks, open.next, []);
    if items.Fail? then Fail(items.error) else
    var close := ConsumeAt(toks, items.next, "bracket", Some("}"));
    if close.Fail? then Fail(close.error) else
    Ok(Block(items.value, LastOf(items.value)), close.next)
  }

  function BlockItemsFrom(toks: seq<Token>, p: nat, acc: seq<Node>): (r: Step<seq<Node>>)
    requires p <= |toks|
    ensures r.Ok? ==> p <= r.next <= |toks|
    ensures r.Ok? ==> acc <= r.value && |r.value| <= |acc| + (r.next - p)
    ensures r.Ok? ==> r.next == |toks| || toks[r.next].value == "}"
    decreases |toks| - p, 7
  {
    if p < |toks| && toks[p].value != "}" then
      var s := ExpressionAt(toks, p);
      if s.Fail? then Fail(s.error) else
      var q := if s.next < |toks| && toks[s.next].kind == "semicolon" then s.next + 1 else s.next;
      BlockItemsFrom(toks, q, acc + [s.value])
    else Ok(acc, p)
  }

  /** `parseIfStatement`: `if (cond) { ... }` and an optional else part. */
  function IfAt(toks: seq<Token>, p: nat): (r: Step<Node>)
    requires p <= |toks|
    ensures r.Ok? ==> p < r.next <= |toks|
    ensures r.Ok? ==> r.value.If? && r.value.thenBranch.Block?
    decreases |toks| - p, 5
  {
    var kw := ConsumeAt(toks, p, "keyword", Some("if"));
    if kw.Fail? then Fail(kw.error) else
    var open := ConsumeAt(toks, kw.next, "parenthesis", Some("("));
    if open.Fail? then Fail(open.error) else
    var cond := ExpressionAt(toks, open.next);
    if cond.Fail? then Fail(cond.error) else
    var close := ConsumeAt(toks, cond.next, "parenthesis", Some(")"));
    if close.Fail? then Fail(close.error) else
    var body := BlockAt(toks, close.next);
    if body.Fail? then Fail(body.error) else
    var other := ElseAt(toks, body.next);
    if other.Fail? then Fail(other.error) else
    Ok(If(cond.value, body.value, other.value), other.next)
  }

  /** The else part of `parseIfStatement`, starting right after the then-block. */
  function ElseAt(toks: seq<Token>, p: nat): (r: Step<Option<Node>>)
    requires p <= |toks|
    ensures r.Ok? ==> p <= r.next <= |toks|
    ensures !IsAt(toks, p, "keyword", "else") && !IsAt(toks, p, "keyword", "elseif") ==> r == Ok(None, p)
    ensures IsAt(toks, p, "keyword", "elseif") && r.Ok? ==>
              r.value.Some? && r.value.value.If? && r.value.value.elseBranch.None?
    ensures IsAt(toks, p, "keyword", "else") && r.Ok? ==>
              p + 1 < |toks| && r.value.Some? && (r.value.value.Block? <==> toks[p + 1].value == "{")
    decreases |toks| - p, 0
  {
    if p < |toks| && toks[p].kind == "keyword" && toks[p].value == "elseif" then
      var open := ConsumeAt(toks, p + 1, "parenthesis", Some("("));
      if open.Fail? then Fail(open.error) else
      var cond := ExpressionAt(toks, open.next);
      if cond.Fail? then Fail(cond.error) else
      var close := ConsumeAt(toks, cond.next, "parenthesis", Some(")"));
      if close.Fail? then Fail(close.error) else
      var body := BlockAt(toks, close.next);
      if body.Fail? then Fail(body.error) else
      Ok(Some(If(cond.value, body.value, None)), body.next)
    else if p < |toks| && toks[p].kind == "keyword" && toks[p].value == "else" then
      if p + 1 == |toks| then Fail(NoToken)
      else if toks[p + 1].value == "{" then
        var body := BlockAt(toks, p + 1);
        if body.Fail? then Fail(body.error) else Ok(Some(body.value), body.next)
      else
        var chained := IfAt(toks, p + 1);
        if chained.Fail? then Fail(chained.error) else Ok(Some(chained.value), chained.next)
    else Ok(None, p)
  }

  /** `parseForLoop`: `for (item[, index]) in iterable { ... }`. */
  function ForAt(toks: seq<Token>, p: nat): (r: Step<Node>)
    requires p <= |toks|
    ensures r.Ok? ==> p < r.next <= |toks|
    ensures r.Ok? ==> r.value.For? && r.value.body.Block? && p + 2 < |toks| && r.value.item == toks[p + 2].value
    decreases |toks| - p, 5
  {
    var kw := ConsumeAt(toks, p, "keyword", Some("for"));
    if kw.Fail? then Fail(kw.error) else
    var open := ConsumeAt(toks, kw.next, "parenthesis", Some("("));
    if open.Fail? then Fail(open.error) else
    var item := ConsumeAt(toks, open.next, "identifier", None);
    if item.Fail? then Fail(item.error) else
    var index := ForIndexAt(toks, item.next);
    if index.Fail? then Fail(index.error) else
    var close := ConsumeAt(toks, index.next, "parenthesis", Some(")"));
    if close.Fail? then Fail(close.error) else
    var kwIn := ConsumeAt(toks, close.next, "keyword", Some("in"));
    if kwIn.Fail? then Fail(kwIn.error) else
    var iterable := IterableAt(toks, kwIn.next);
    if iterable.Fail? then Fail(iterable.error) else
    var body := BlockAt(toks, iterable.next);
    if body.Fail? then Fail(body.error) else
    Ok(For(item.value.value, index.value, iterable.value, body.value), body.next)
  }

  /** The optional `, index` of a `for` header. */
  function ForIndexAt(toks: seq<Token>, p: nat): (r: Step<Option<string>>)
    requires p <= |toks|
    ensures r.Ok? ==> p < |toks| && p <= r.next <= |toks|
    ensures r.Ok? ==> (r.value.None? <==> toks[p].kind != "comma")
    ensures r.Ok? && r.value.Some? ==> r.next == p + 2 && toks[p + 1].kind == "identifier"
                                        && r.value.value == toks[p + 1].value
    ensures r.Ok? && r.value.None? ==> r.next == p
  {
    if p == |toks| then Fail(NoToken)
    else if toks[p].kind == "comma" then
      var id := ConsumeAt(toks, p + 1, "identifier", None);
      if id.Fail? then Fail(id.error) else Ok(Some(id.value.value), id.next)
    else Ok(None, p)
  }

  /** The iterable of a `for`: a bare identifier is kept as its name. */
  function IterableAt(toks: seq<Token>, p: nat): (r: Step<Iterable>)
    requires p <= |toks|
    ensures r.Ok? ==> p < r.next <= |toks|
    ensures r.Ok? ==> (r.value.RawName? <==> toks[p].kind == "identifier")
    ensures r.Ok? && r.value.RawName? ==> r.value.name == toks[p].value
    decreases |toks| - p, 7
  {
    if p == |toks| then Fail(NoToken)
    else if toks[p].kind == "identifier" then Ok(RawName(toks[p].value), p + 1)
    else
      var e := ExpressionAt(toks, p);
      if e.Fail? then Fail(e.error) else Ok(Expr(e.value), e.next)
  }

  /** `parseComparison`: a left-leaning chain of additive operands joined by comparators. */
  function ComparisonAt(toks: seq<Token>, p: nat): (r: Step<Node>)
    requires p <= |toks|
    ensures r.Ok? ==> p < r.next <= |toks|
    decreases |toks| - p, 5
  {
    var left := AdditiveAt(toks, p);
    if left.Fail? then Fail(left.error) else ComparisonRest(toks, left.value, left.next)
  }

  function ComparisonRest(toks: seq<Token>, node: Node, p: nat): (r: Step<Node>)
    requires p <= |toks|
    ensures r.Ok? ==> p <= r.next <= |toks|
    decreases |toks| - p, 0
  {
    if p < |toks| && toks[p].kind == "comparator" then
      var right := AdditiveAt(toks, p + 1);
      if right.Fail? then Fail(right.error)
      else ComparisonRest(toks, Binary(toks[p].value, node, right.value), right.next)
    else Ok(node, p)
  }

  predicate IsAdditiveOp(t: Token) { t.kind == "operator" && (t.value == "+" || t.value == "-") }

  predicate IsMultiplicativeOp(t: Token) { t.kind == "operator" && (t.value == "*" || t.value == "/") }

  /** `parseAdditive`. */
  function AdditiveAt(toks: seq<Token>, p: nat): (r: Step<Node>)
    requires p <= |toks|
    ensures r.Ok? ==> p < r.next <= |toks|
    decreases |toks| - p, 4
  {
    var left := MultiplicativeAt(toks, p);
    if left.Fail? then Fail(left.error) else AdditiveRest(toks, left.value, left.next)
  }

  function AdditiveRest(toks: seq<Token>, node: Node, p: nat): (r: Step<Node>)
    requires p <= |toks|
    ensures r.Ok? ==> p <= r.next <= |toks|
    decreases |toks| - p, 0
  {
    if p < |toks| && IsAdditiveOp(toks[p]) then
      var right := MultiplicativeAt(toks, p + 1);
      if right.Fail? then Fail(right.error)
      else AdditiveRest(toks, Binary(toks[p].value, node, right.value), right.next)
    else Ok(node, p)
  }

  /** `parseMultiplicative`: its operands are primaries. */
  function MultiplicativeAt(toks: seq<Token>, p: nat): (r: Step<Node>)
    requires p <= |toks|
    ensures r.Ok? ==> p < r.next <= |toks|
    decreases |toks| - p, 3
  {
    var left := PrimaryAt(toks, p);
    if left.Fail? then Fail(left.error) else MultiplicativeRest(toks, left.value, left.next)
  }

  function MultiplicativeRest(toks: seq<Token>, node: Node, p: nat): (r: Step<Node>)
    requires p <= |toks|
    ensures r.Ok? ==> p <= r.next <= |toks|
    decreases |toks| - p, 0
  {
    if p < |toks| && IsMultiplicativeOp(toks[p]) then
      var right := PrimaryAt(toks, p + 1);
      if right.Fail? then Fail(right.error)
      else MultiplicativeRest(toks, Binary(toks[p].value, node, right.value), right.next)
    else Ok(node, p)
  }

  /** `Number(text)` for a numeral made of decimal digits. */
  function NumberValue(s: string): int
  {
    if s == [] then 0 else 10 * NumberValue(s[..|s| - 1]) + DigitValue(s[|s| - 1])
  }

  function DigitValue(c: char): int
  {
    if '0' <= c <= '9' then c as int - '0' as int else 0
  }

  /** `parsePrimary`. An identifier directly followed by `(` is a call and gets no
      postfix; every other primary goes through the postfix loop. */
  function PrimaryAt(toks: seq<Token>, p: nat): (r: Step<Node>)
    requires p <= |toks|
    ensures r.Ok? ==> p < r.next <= |toks|
    ensures r.Ok? && p < |toks| && toks[p].kind == "identifier" && IsAt(toks, p + 1, "parenthesis", "(") ==>
              r.value.Call? && r.value.callee == NameOnly(toks[p].value)
              && p + 3 <= r.next && toks[r.next - 1] == Token("parenthesis", ")")
    decreases |toks| - p, 2
  {
    if p < |toks| && toks[p].kind == "identifier" && IsAt(toks, p + 1, "parenthesis", "(") then
      FunctionCallAt(toks, p + 1, toks[p].value)
    else
      var head := PrimaryHeadAt(toks, p);
      if head.Fail? then Fail(head.error) else PostfixFrom(toks, head.value, head.next)
  }

  /** The literal, identifier, parenthesised, block and array cases of `parsePrimary`. */
  function PrimaryHeadAt(toks: seq<Token>, p: nat): (r: Step<Node>)
    requires p <= |toks|
    ensures r.Ok? ==> p < r.next <= |toks|
    decreases |toks| - p, 1
  {
    if p == |toks| then Fail(NoToken) else
    var t := toks[p];
    if t.kind == "number" then Ok(NumLit(NumberValue(t.value)), p + 1)
    else if t.kind == "string" then Ok(StrLit(t.value), p + 1)
    else if t.kind == "boolean" then Ok(BoolLit(t.value != ""), p + 1)
    else if t.kind == "identifier" then Ok(Ident(t.value), p + 1)
    else if t.kind == "parenthesis" && t.value == "(" then
      var inner := ExpressionAt(toks, p + 1);
      if inner.Fail? then Fail(inner.error) else
      var close := ConsumeAt(toks, inner.next, "parenthesis", Some(")"));
      if close.Fail? then Fail(close.error) else Ok(inner.value, close.next)
    else if t.kind == "bracket" && t.value == "{" then BlockAt(toks, p)
    else if t.kind == "squarebracket" && t.value == "[" then
      var values := ArgListFrom(toks, p + 1, [], "]");
      if values.Fail? then Fail(values.error) else
      var close := ConsumeAt(toks, values.next, "squarebracket", Some("]"));
      if close.Fail? then Fail(close.error) else Ok(ArrayLit(values.value), close.next)
    else Fail(UnexpectedToken(t))
  }

  /** The postfix loop of `parsePrimary`: `[index]` (on `bracket` tokens),
      `.prop` and `.prop(args)`, until `)`, `}` or any other token. */
  function PostfixFrom(toks: seq<Token>, node: Node, p: nat): (r: Step<Node>)
    requires p <= |toks|
    ensures r.Ok? ==> p <= r.next <= |toks|
    ensures p == |toks| || (toks[p].kind != "dot" && toks[p] != Token("bracket", "[")) ==> r == Ok(node, p)
    ensures r.Ok? && r.next == p ==> r.value == node
    decreases |toks| - p, 0
  {
    if p == |toks| || IsAt(toks, p, "parenthesis", ")") || IsAt(toks, p, "bracket", "}") then Ok(node, p)
    else if IsAt(toks, p, "bracket", "[") then
      var index := ExpressionAt(toks, p + 1);
      if index.Fail? then Fail(index.error) else
      var close := ConsumeAt(toks, index.next, "bracket", Some("]"));
      if close.Fail? then Fail(close.error) else PostfixFrom(toks, Index(node, index.value), close.next)
    else if toks[p].kind == "dot" then
      var prop := ConsumeAt(toks, p + 1, "identifier", None);
      if prop.Fail? then Fail(prop.error)
      else if IsAt(toks, prop.next, "parenthesis", "(") then
        var args := CallArgsAt(toks, prop.next);
        if args.Fail? then Fail(args.error)
        else PostfixFrom(toks, Call(Via(Property(node, prop.value.value)), args.value), args.next)
      else PostfixFrom(toks, Property(node, prop.value.value), prop.next)
    else Ok(node, p)
  }
}
