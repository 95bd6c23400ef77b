/**
  What whole programs do: the parser's trees for some families of token
  sequences, run through the evaluator and the statement loop of `interpret`.
 */
module ProgramFacts {
  import opened Syntax
  import opened Grammar
  import opened Values
  import opened Semantics
  import opened Driver
  import opened EvalFacts
  import opened GrammarFacts

  /** A program of one statement: its value when it completes, otherwise one
      report for line 1. */
  lemma OneStatement(fuel: nat, s: Node, toks: seq<Token>)
    requires ProgramOf(toks) == Ok([s], |toks|)
    ensures var r := Eval(fuel, s, map[], World([], []));
            Run(fuel, toks) == Success(
              if r.outcome.Normal? then Session(r.outcome.value, r.env, r.world)
              else Session(Undefined, r.env, Report(r.world, 1, r.outcome.signal)))
  {
    var r := Eval(fuel, s, map[], World([], []));
    if r.outcome.Normal? {
      assert RunStatements(fuel, [s], 1, r.outcome.value, r.env, r.world) == Session(r.outcome.value, r.env, r.world);
    } else {
      var w' := Report(r.world, 1, r.outcome.signal);
      assert RunStatements(fuel, [s], 1, Undefined, r.env, w') == Session(Undefined, r.env, w');
    }
  }

  /** The value of `a op b` for the integer operators this section uses. */
  function ApplyInt(op: string, a: int, b: int): int
  {
    if op == "+" then a + b else if op == "-" then a - b else a * b
  }

  /** `v op1 n1 op2 n2 ...` computed from the left. */
  function LeftFold(v: int, terms: seq<Term>): int
    decreases |terms|
  {
    if terms == [] then v else LeftFold(ApplyInt(terms[0].op, v, terms[0].operand), terms[1..])
  }

  /** A left-nested chain of `+`, `-` and `*` on numerals evaluates to the left
      fold of its terms and touches neither the environment nor the world. */
  lemma {:induction false} NestEvaluates(fuel: nat, acc: Node, v: int, terms: seq<Term>, env: Bindings, w: World)
    requires AllOps(terms, {"+", "-", "*"})
    requires Eval(fuel, acc, env, w) == Res(Normal(Num(v)), env, w)
    ensures Eval(fuel, Nest(acc, terms), env, w) == Res(Normal(Num(LeftFold(v, terms))), env, w)
    decreases |terms|
  {
    if terms != [] {
      var t := terms[0];
      var v' := ApplyInt(t.op, v, t.operand);
      assert ApplyOperator(t.op, Num(v), Num(t.operand)) == Normal(Num(v'));
      assert Eval(fuel, Binary(t.op, acc, NumLit(t.operand)), env, w) == Res(Normal(Num(v')), env, w);
      assert AllOps(terms[1..], {"+", "-", "*"}) by {
        forall i | 0 <= i < |terms[1..]| ensures terms[1..][i].op in {"+", "-", "*"} {
          assert terms[1..][i] == terms[i + 1];
        }
      }
      NestEvaluates(fuel, Binary(t.op, acc, NumLit(t.operand)), v', terms[1..], env, w);
    }
  }

  /** The program `n0 op1 n1 op2 n2 ...` of `+` and `-` returns its left fold:
      the operators associate to the left. */
  lemma ChainProgramValue(fuel: nat, first: nat, terms: seq<Term>)
    requires AllOps(terms, {"+", "-"})
    ensures Run(fuel, ChainTokens(first, terms))
            == Success(Session(Num(LeftFold(first, terms)), map[], World([], [])))
  {
    var toks := ChainTokens(first, terms);
    AdditiveChainProgram(first, terms);
    NestEvaluates(fuel, NumLit(first), first, terms, map[], World([], []));
    OneStatement(fuel, Nest(NumLit(first), terms), toks);
  }

  /** The values of a list of numerals. */
  function Nums(ns: seq<nat>): (r: seq<Value>)
    ensures |r| == |ns| && forall i :: 0 <= i < |ns| ==> r[i] == Num(ns[i])
  {
    seq(|ns|, i requires 0 <= i < |ns| => Num(ns[i]))
  }

  /** Numerals evaluate to their numbers, in order, with no effect. */
  lemma {:induction false} EachNumLits(fuel: nat, ns: seq<nat>, acc: seq<Value>, env: Bindings, w: World)
    ensures EvalEach(fuel, NumLits(ns), acc, env, w) == Res(Normal(acc + Nums(ns)), env, w)
    decreases |ns|
  {
    if ns != [] {
      assert NumLits(ns)[1..] == NumLits(ns[1..]);
      EachNumLits(fuel, ns[1..], acc + [Num(ns[0])], env, w);
      assert acc + [Num(ns[0])] + Nums(ns[1..]) == acc + Nums(ns);
    } else {
      assert acc + Nums(ns) == acc;
    }
  }

  /** An array literal of numerals stores one new array holding the numbers. */
  lemma ArrayLiteralEvaluates(fuel: nat, ns: seq<nat>, env: Bindings, w: World)
    ensures Eval(fuel, ArrayLit(NumLits(ns)), env, w)
            == Res(Normal(Ref(|w.heap|)), env, World(w.heap + [ArrayObj(Nums(ns))], w.output))
  {
    EachNumLits(fuel, ns, [], env, w);
    assert [] + Nums(ns) == Nums(ns);
    var vs := EvalEach(fuel, NumLits(ns), [], env, w);
    assert vs == Res(Normal(Nums(ns)), env, w);
    assert Alloc(w, ArrayObj(Nums(ns))) == (Ref(|w.heap|), World(w.heap + [ArrayObj(Nums(ns))], w.output));
    assert Eval(fuel, ArrayLit(NumLits(ns)), env, w)
           == Res(Normal(Ref(|w.heap|)), env, World(w.heap + [ArrayObj(Nums(ns))], w.output));
  }

  /** The program `[n1, ..., nk]` leaves one array in the store and returns it. */
  lemma ArrayProgramValue(fuel: nat, ns: seq<nat>)
    ensures Run(fuel, [Token("squarebracket", "[")] + ListTokens(ns) + [Token("squarebracket", "]")])
            == Success(Session(Ref(0), map[], World([ArrayObj(Nums(ns))], [])))
  {
    ArrayLiteralProgram(ns);
    ArrayLiteralEvaluates(fuel, ns, map[], World([], []));
    OneStatement(fuel, ArrayLit(NumLits(ns)), [Token("squarebracket", "[")] + ListTokens(ns) + [Token("squarebracket", "]")]);
    assert [] + [ArrayObj(Nums(ns))] == [ArrayObj(Nums(ns))];
  }

  /** A loop over an array literal whose body is the item visits every number;
      its value is the last one, or null for an empty array. */
  lemma ForOverArrayLiteral(fuel: nat, item: string, ns: seq<nat>, env: Bindings, w: World)
    requires |ns| <= fuel
    ensures Eval(fuel, For(item, None, Expr(ArrayLit(NumLits(ns))), ItemBody(item)), env, w)
            == Res(Normal(if ns == [] then Null else Num(ns[|ns| - 1])), env,
                   World(w.heap + [ArrayObj(Nums(ns))], w.output))
  {
    ArrayLiteralEvaluates(fuel, ns, env, w);
    var w' := World(w.heap + [ArrayObj(Nums(ns))], w.output);
    assert Elements(w'.heap, |w.heap|) == Nums(ns);
    ForYieldsLastItem(fuel, item, None, |w.heap|, 0, Null, env, w');
  }

  /** A call the parser builds from `name(...)` carries no callee node, so it
      can never complete: once its arguments are evaluated it is an unknown
      function, whatever the name. */
  lemma ParsedCallFails(fuel: nat, toks: seq<Token>, p: nat, name: string, env: Bindings, w: World)
    requires p <= |toks| && FunctionCallAt(toks, p, name).Ok?
    ensures var call := FunctionCallAt(toks, p, name).value;
            && Eval(fuel, call, env, w).outcome.Abrupt?
            && (EvalEach(fuel, call.args, [], env, w).outcome.Normal? ==>
                  Eval(fuel, call, env, w).outcome == Abrupt(Thrown(UnknownFunction(None))))
  {
    var call := FunctionCallAt(toks, p, name).value;
    var vs := EvalEach(fuel, call.args, [], env, w);
    if vs.outcome.Normal? {
      assert EvalCall(fuel, NameOnly(name), vs.outcome.value, vs.env, vs.world).outcome
             == Abrupt(Thrown(UnknownFunction(None)));
    }
  }

  /** The tokens of `name(n)`. */
  function CallTokens(name: string, n: nat): seq<Token>
  {
    [Token("identifier", name), Token("parenthesis", "("), NumberToken(n), Token("parenthesis", ")")]
  }

  /** The program `name(n)` (even `print(n)`) prints nothing: its one statement
      is reported as a call of an unknown function. */
  lemma CallProgramIsReported(fuel: nat, name: string, n: nat)
    ensures Run(fuel, CallTokens(name, n))
            == Success(Session(Undefined, map[], World([], [Reported(1, Thrown(UnknownFunction(None)))])))
  {
    var t := CallTokens(name, n);
    NumberExpression(t, 2, n);
    assert [] + [NumLit(n)] == [NumLit(n)];
    assert ArgListFrom(t, 2, [], ")") == Ok([NumLit(n)], 3);
    var e := Call(NameOnly(name), [NumLit(n)]);
    assert FunctionCallAt(t, 1, name) == Ok(e, 4);
    assert PrimaryAt(t, 0) == Ok(e, 4);
    assert MultiplicativeAt(t, 0) == Ok(e, 4);
    assert AdditiveAt(t, 0) == Ok(e, 4);
    assert ComparisonAt(t, 0) == Ok(e, 4);
    assert ExpressionAt(t, 0) == Ok(e, 4);
    assert [] + [e] == [e];
    assert StatementsFrom(t, 4, [e]) == Ok([e], 4);
    assert ProgramOf(t) == Ok([e], 4);
    EachNumLits(fuel, [n], [], map[], World([], []));
    assert NumLits([n]) == [NumLit(n)] && [] + Nums([n]) == [Num(n)];
    assert Eval(fuel, e, map[], World([], [])) == Res(Abrupt(Thrown(UnknownFunction(None))), map[], World([], []));
    OneStatement(fuel, e, t);
    assert Report(World([], []), 1, Thrown(UnknownFunction(None)))
           == World([], [Reported(1, Thrown(UnknownFunction(None)))]);
  }

  /** `for (item) in xs {}` with a bare name never runs its body, even when
      `xs` is an array: its statement is reported as an unknown node type. */
  lemma BareIterableProgramIsReported(fuel: nat, item: string, name: string)
    ensures Run(fuel, ForTokens(item, [Token("identifier", name)]))
            == Success(Session(Undefined, map[],
                               World([], [Reported(1, Thrown(UnknownNodeType("undefined")))])))
  {
    var t := ForTokens(item, [Token("identifier", name)]);
    ForIterableForms(item, name);
    var e := For(item, None, RawName(name), Block([], None));
    assert ExpressionAt(t, 0) == Ok(e, 8);
    assert [] + [e] == [e];
    assert StatementsFrom(t, 8, [e]) == Ok([e], 8);
    assert ProgramOf(t) == Ok([e], 8);
    var r := Eval(fuel, e, map[], World([], []));
    assert r == Res(Abrupt(Thrown(UnknownNodeType("undefined"))), map[], World([], []));
    OneStatement(fuel, e, t);
    assert Report(World([], []), 1, r.outcome.signal) == World([], [Reported(1, r.outcome.signal)]);
  }
}
