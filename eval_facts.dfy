/**
  Properties of evaluation that hold for every program.

  The frame theorem: evaluating a node changes the environment only at the
  names its own assignments bind (assignments inside a loop body or a function
  body write to a copy and do not count), never removes a binding, and changes
  the world only by adding objects, appending to arrays and appending printed
  lines; a function record, once stored, never changes.
 */
module EvalFacts {
  import opened Syntax
  import opened Values
  import opened Semantics

  /** Object `o` may have become `o'`: an array by growing at its end. */
  predicate Extends(o: Obj, o': Obj)
  {
    if o.ArrayObj? then o'.ArrayObj? && o.elems <= o'.elems else o' == o
  }

  /** `w'` is `w` after some evaluation: no object is lost or replaced, earlier
      output stays, and evaluation itself writes only `print` lines. */
  predicate Grows(w: World, w': World)
  {
    && |w.heap| <= |w'.heap|
    && w.output <= w'.output
    && (forall a :: 0 <= a < |w.heap| ==> Extends(w.heap[a], w'.heap[a]))
    && (forall k :: |w.output| <= k < |w'.output| ==> w'.output[k].Printed?)
  }

  /** `env'` differs from `env` at most at `names`, and has every binding `env` has. */
  predicate EnvFrame(env: Bindings, env': Bindings, names: set<string>)
  {
    && env.Keys <= env'.Keys
    && (forall y :: y in env' && y !in names ==> y in env && env'[y] == env[y])
  }

  /** The names a node's evaluation can bind in its own environment. */
  function Assigned(n: Node): set<string>
    decreases Size(n), 1
  {
    match n
    case Binary(_, l, r) => Assigned(l) + Assigned(r)
    case ArrayLit(es) => AssignedAll(es)
    case Property(o, _) => Assigned(o)
    case Assignment(x, e) => {x} + (if e.FunctionLit? then {} else Assigned(e))
    case Call(c, args) =>
      AssignedAll(args) + (if c.Via? && c.node.Property? then AssignedCallee(c) else {})
    case Block(ss, _) => AssignedAll(ss)
    case If(c, t, e) => Assigned(c) + Assigned(t) + (if e.Some? then Assigned(e.value) else {})
    case For(_, _, it, _) => if it.Expr? then Assigned(it.node) else {}
    case Return(e) => Assigned(e)
    case _ => {}
  }

  function AssignedCallee(c: Callee): set<string>
    requires c.Via? && c.node.Property?
    decreases CalleeSize(c), 1
  {
    assert Size(c.node.obj) < CalleeSize(c);
    Assigned(c.node.obj)
  }

  function AssignedAll(ns: seq<Node>): set<string>
    decreases SizeAll(ns), 2
  {
    if ns == [] then {} else Assigned(ns[0]) + AssignedAll(ns[1..])
  }

  lemma GrowsTrans(w1: World, w2: World, w3: World)
    requires Grows(w1, w2) && Grows(w2, w3)
    ensures Grows(w1, w3)
  {
    forall a | 0 <= a < |w1.heap|
      ensures Extends(w1.heap[a], w3.heap[a])
    {
      assert Extends(w1.heap[a], w2.heap[a]) && Extends(w2.heap[a], w3.heap[a]);
      if w1.heap[a].ArrayObj? {
        assert w1.heap[a].elems <= w2.heap[a].elems <= w3.heap[a].elems;
      }
    }
    forall k | |w1.output| <= k < |w3.output|
      ensures w3.output[k].Printed?
    {
      if k < |w2.output| {
        assert w3.output[k] == w2.output[k];
      }
    }
  }

  lemma EnvFrameTrans(e1: Bindings, e2: Bindings, e3: Bindings, a: set<string>, b: set<string>)
    requires EnvFrame(e1, e2, a) && EnvFrame(e2, e3, b)
    ensures EnvFrame(e1, e3, a + b)
  {
  }

  lemma AllocGrows(w: World, obj: Obj)
    ensures Grows(w, Alloc(w, obj).1)
  {
  }

  lemma BuiltinGrows(name: string, args: seq<Value>, w: World)
    requires name in Builtins
    ensures Grows(w, CallBuiltin(name, args, w).1)
  {
    var w' := CallBuiltin(name, args, w).1;
    if name == "print" && args != [] {
      assert w'.output == w.output + [Printed(args, w.heap)];
    }
  }

  lemma PushGrows(w: World, addr: nat, args: seq<Value>)
    requires addr < |w.heap| && w.heap[addr].ArrayObj?
    ensures Grows(w, Push(w, addr, args))
  {
    var w' := Push(w, addr, args);
    assert w'.heap[addr].elems == w.heap[addr].elems + args;
  }

  /** The frame theorem for `Eval`, proved together with the same theorem for
      every function `Eval` calls. */
  lemma {:induction false} EvalFrame(fuel: nat, n: Node, env: Bindings, w: World)
    ensures Grows(w, Eval(fuel, n, env, w).world)
    ensures EnvFrame(env, Eval(fuel, n, env, w).env, Assigned(n))
    decreases fuel, Size(n), 0
  {
    var r := Eval(fuel, n, env, w);
    match n
    case NumLit(_) =>
    case StrLit(_) =>
    case BoolLit(_) =>
    case NullLit =>
    case Ident(_) =>
    case Binary(_, _, _) =>
      BinaryFrame(fuel, n, env, w);
    case ArrayLit(_) =>
      ArrayLitFrame(fuel, n, env, w);
    case Index(_, _) =>
    case Property(o, _) =>
      EvalFrame(fuel, o, env, w);
    case Assignment(x, e) =>
      if e.FunctionLit? {
        if x !in Builtins {
          AllocGrows(w, FunctionObj(e.params, e.body));
        }
      } else {
        EvalFrame(fuel, e, env, w);
      }
    case FunctionLit(_, _) =>
    case Call(_, _) =>
      CallNodeFrame(fuel, n, env, w);
    case Block(ss, _) =>
      BlockFrame(fuel, ss, Null, env, w);
    case If(_, _, _) =>
      IfFrame(fuel, n, env, w);
    case For(_, _, _, _) =>
      ForNodeFrame(fuel, n, env, w);
    case Return(e) =>
      EvalFrame(fuel, e, env, w);
  }

  /** The frame theorem for an array literal: the elements, then one allocation. */
  lemma {:induction false} ArrayLitFrame(fuel: nat, n: Node, env: Bindings, w: World)
    requires n.ArrayLit?
    ensures Grows(w, Eval(fuel, n, env, w).world)
    ensures EnvFrame(env, Eval(fuel, n, env, w).env, Assigned(n))
    decreases fuel, Size(n) - 1, 2
  {
    var r := Eval(fuel, n, env, w);
    EachFrame(fuel, n.elems, [], env, w);
    var vs := EvalEach(fuel, n.elems, [], env, w);
    if vs.outcome.Normal? {
      AllocGrows(vs.world, ArrayObj(vs.outcome.value));
      GrowsTrans(w, vs.world, r.world);
    }
  }

  /** The frame theorem for a `for` node: the iterable, then the loop. */
  lemma {:induction false} ForNodeFrame(fuel: nat, n: Node, env: Bindings, w: World)
    requires n.For?
    ensures Grows(w, Eval(fuel, n, env, w).world)
    ensures EnvFrame(env, Eval(fuel, n, env, w).env, Assigned(n))
    decreases fuel, Size(n) - 1, 2
  {
    var r := Eval(fuel, n, env, w);
    if n.iterable.Expr? {
      EvalFrame(fuel, n.iterable.node, env, w);
      var a := Eval(fuel, n.iterable.node, env, w);
      if a.outcome.Normal? && IsArray(a.world.heap, a.outcome.value) {
        ForFrame(fuel, n.item, n.indexName, a.outcome.value.addr, n.body, 0, Null, a.env, a.world);
        GrowsTrans(w, a.world, r.world);
      }
    }
  }

  /** The frame theorem for a binary node, one operand after the other. */
  lemma {:induction false} BinaryFrame(fuel: nat, n: Node, env: Bindings, w: World)
    requires n.Binary?
    ensures Grows(w, Eval(fuel, n, env, w).world)
    ensures EnvFrame(env, Eval(fuel, n, env, w).env, Assigned(n))
    decreases fuel, Size(n) - 1, 2
  {
    EvalFrame(fuel, n.left, env, w);
    var a := Eval(fuel, n.left, env, w);
    if a.outcome.Normal? {
      EvalFrame(fuel, n.right, a.env, a.world);
      var b := Eval(fuel, n.right, a.env, a.world);
      GrowsTrans(w, a.world, b.world);
      EnvFrameTrans(env, a.env, b.env, Assigned(n.left), Assigned(n.right));
    }
  }

  /** The frame theorem for a call node: the arguments, then the call. */
  lemma {:induction false} CallNodeFrame(fuel: nat, n: Node, env: Bindings, w: World)
    requires n.Call?
    ensures Grows(w, Eval(fuel, n, env, w).world)
    ensures EnvFrame(env, Eval(fuel, n, env, w).env, Assigned(n))
    decreases fuel, Size(n) - 1, 2
  {
    var r := Eval(fuel, n, env, w);
    EachFrame(fuel, n.args, [], env, w);
    var vs := EvalEach(fuel, n.args, [], env, w);
    if vs.outcome.Normal? {
      CallFrame(fuel, n.callee, vs.outcome.value, vs.env, vs.world);
      GrowsTrans(w, vs.world, r.world);
      var names := if n.callee.Via? && n.callee.node.Property? then AssignedCallee(n.callee) else {};
      EnvFrameTrans(env, vs.env, r.env, AssignedAll(n.args), names);
    }
  }

  /** The frame theorem for an `if` node: the condition, then one branch. */
  lemma {:induction false} IfFrame(fuel: nat, n: Node, env: Bindings, w: World)
    requires n.If?
    ensures Grows(w, Eval(fuel, n, env, w).world)
    ensures EnvFrame(env, Eval(fuel, n, env, w).env, Assigned(n))
    decreases fuel, Size(n) - 1, 2
  {
    var r := Eval(fuel, n, env, w);
    var c, t, e := n.cond, n.thenBranch, n.elseBranch;
    EvalFrame(fuel, c, env, w);
    var a := Eval(fuel, c, env, w);
    if a.outcome.Normal? {
      if Truthy(a.outcome.value) {
        EvalFrame(fuel, t, a.env, a.world);
        GrowsTrans(w, a.world, r.world);
        EnvFrameTrans(env, a.env, r.env, Assigned(c), Assigned(t));
      } else if e.Some? {
        EvalFrame(fuel, e.value, a.env, a.world);
        GrowsTrans(w, a.world, r.world);
        EnvFrameTrans(env, a.env, r.env, Assigned(c), Assigned(e.value));
      }
    }
  }

  lemma {:induction false} EachFrame(fuel: nat, ns: seq<Node>, acc: seq<Value>, env: Bindings, w: World)
    ensures Grows(w, EvalEach(fuel, ns, acc, env, w).world)
    ensures EnvFrame(env, EvalEach(fuel, ns, acc, env, w).env, AssignedAll(ns))
    decreases fuel, SizeAll(ns), 1
  {
    if ns != [] {
      EvalFrame(fuel, ns[0], env, w);
      var a := Eval(fuel, ns[0], env, w);
      if a.outcome.Normal? {
        EachFrame(fuel, ns[1..], acc + [a.outcome.value], a.env, a.world);
        var r := EvalEach(fuel, ns[1..], acc + [a.outcome.value], a.env, a.world);
        GrowsTrans(w, a.world, r.world);
        EnvFrameTrans(env, a.env, r.env, Assigned(ns[0]), AssignedAll(ns[1..]));
      }
    }
  }

  lemma {:induction false} BlockFrame(fuel: nat, ss: seq<Node>, last: Value, env: Bindings, w: World)
    ensures Grows(w, EvalBlock(fuel, ss, last, env, w).world)
    ensures EnvFrame(env, EvalBlock(fuel, ss, last, env, w).env, AssignedAll(ss))
    decreases fuel, SizeAll(ss), 1
  {
    if ss != [] {
      EvalFrame(fuel, ss[0], env, w);
      var a := Eval(fuel, ss[0], env, w);
      if a.outcome.Normal? {
        BlockFrame(fuel, ss[1..], a.outcome.value, a.env, a.world);
        var r := EvalBlock(fuel, ss[1..], a.outcome.value, a.env, a.world);
        GrowsTrans(w, a.world, r.world);
        EnvFrameTrans(env, a.env, r.env, Assigned(ss[0]), AssignedAll(ss[1..]));
      }
    }
  }

  lemma {:induction false} CallFrame(fuel: nat, c: Callee, argv: seq<Value>, env: Bindings, w: World)
    ensures Grows(w, EvalCall(fuel, c, argv, env, w).world)
    ensures EnvFrame(env, EvalCall(fuel, c, argv, env, w).env,
                     if c.Via? && c.node.Property? then AssignedCallee(c) else {})
    decreases fuel, CalleeSize(c), 1
  {
    if c.Via? && c.node.Property? {
      assert Size(c.node.obj) < CalleeSize(c);
      EvalFrame(fuel, c.node.obj, env, w);
      var a := Eval(fuel, c.node.obj, env, w);
      if a.outcome.Normal? && IsArray(a.world.heap, a.outcome.value) && c.node.prop == "push" {
        PushGrows(a.world, a.outcome.value.addr, argv);
        GrowsTrans(w, a.world, Push(a.world, a.outcome.value.addr, argv));
      }
    } else if c.Via? && c.node.Ident? && c.node.name in Builtins {
      BuiltinGrows(c.node.name, argv, w);
    } else if c.Via? && c.node.Ident? && c.node.name in env && IsFunction(w.heap, env[c.node.name]) {
      var fn := w.heap[env[c.node.name].addr];
      UserFrame(fuel, fn.params, fn.body, argv, env, w);
    }
  }

  lemma {:induction false} UserFrame(fuel: nat, params: seq<string>, body: Node, argv: seq<Value>, env: Bindings, w: World)
    ensures Grows(w, CallUser(fuel, params, body, argv, env, w).world)
    decreases fuel, 0, 0
  {
    if fuel > 0 {
      EvalFrame(fuel - 1, body, BindParams(env, params, argv, 0), w);
    }
  }

  lemma {:induction false} ForFrame(fuel: nat, item: string, index: Option<string>, addr: nat, body: Node,
                                    i: nat, last: Value, env: Bindings, w: World)
    ensures Grows(w, EvalFor(fuel, item, index, addr, body, i, last, env, w).world)
    decreases fuel, Size(body), 1
  {
    var elems := Elements(w.heap, addr);
    if i < |elems| && fuel > 0 {
      var local := IterationScope(env, item, index, elems[i], i);
      EvalFrame(fuel, body, local, w);
      var b := Eval(fuel, body, local, w);
      if b.outcome.Normal? {
        ForFrame(fuel - 1, item, index, addr, body, i + 1, b.outcome.value, env, b.world);
        GrowsTrans(w, b.world, EvalFor(fuel - 1, item, index, addr, body, i + 1, b.outcome.value, env, b.world).world);
      }
    }
  }

  /** Parameter binding from index `i` on: every parameter is bound, to its
      argument when no later parameter has the same name, and every other
      binding of the caller is kept. */
  lemma {:induction false} BindParamsFrom(local: Bindings, params: seq<string>, argv: seq<Value>, i: nat)
    requires i <= |params|
    ensures forall y :: y in BindParams(local, params, argv, i) <==> y in local || y in params[i..]
    ensures forall y :: y in local && y !in params[i..] ==> BindParams(local, params, argv, i)[y] == local[y]
    ensures forall k :: i <= k < |params| && params[k] !in params[k + 1..] ==>
              BindParams(local, params, argv, i)[params[k]] == ArgAt(argv, k)
    decreases |params| - i
  {
    if i < |params| {
      var local' := local[params[i] := ArgAt(argv, i)];
      BindParamsFrom(local', params, argv, i + 1);
      assert params[i..] == [params[i]] + params[i + 1..];
    }
  }

  /** The environment a call runs its body in: the caller's bindings, with each
      parameter bound to the argument at its position (undefined when the call
      passes fewer), the last of two equal parameter names winning. */
  lemma BindParamsBinds(env: Bindings, params: seq<string>, argv: seq<Value>)
    ensures forall y :: y in BindParams(env, params, argv, 0) <==> y in env || y in params
    ensures forall y :: y in env && y !in params ==> BindParams(env, params, argv, 0)[y] == env[y]
    ensures forall k :: 0 <= k < |params| && params[k] !in params[k + 1..] ==>
              BindParams(env, params, argv, 0)[params[k]] == ArgAt(argv, k)
  {
    BindParamsFrom(env, params, argv, 0);
    assert params[0..] == params;
  }

  /** The block `{ item }`. */
  function ItemBody(item: string): Node
  {
    Block([Ident(item)], Some(Ident(item)))
  }

  /** A loop whose body is just the item visits every element in order and its
      value is the last element (or the value it started with, when there is
      nothing left to visit); the store and environment are untouched. */
  lemma {:induction false} ForYieldsLastItem(fuel: nat, item: string, index: Option<string>, addr: nat,
                                             i: nat, last: Value, env: Bindings, w: World)
    requires index.None? || index.value != item
    requires |Elements(w.heap, addr)| <= i + fuel
    ensures var elems := Elements(w.heap, addr);
            EvalFor(fuel, item, index, addr, ItemBody(item), i, last, env, w)
            == Res(Normal(if i < |elems| then elems[|elems| - 1] else last), env, w)
    decreases fuel
  {
    var elems := Elements(w.heap, addr);
    if i < |elems| {
      var scope := IterationScope(env, item, index, elems[i], i);
      assert scope[item] == elems[i];
      assert Eval(fuel, Ident(item), scope, w) == Res(Normal(elems[i]), scope, w);
      assert [Ident(item)][1..] == [];
      assert EvalBlock(fuel, [], elems[i], scope, w) == Res(Normal(elems[i]), scope, w);
      assert EvalBlock(fuel, [Ident(item)], Null, scope, w) == Res(Normal(elems[i]), scope, w);
      assert Eval(fuel, ItemBody(item), scope, w) == Res(Normal(elems[i]), scope, w);
      ForYieldsLastItem(fuel - 1, item, index, addr, i + 1, elems[i], env, w);
    }
  }

  /** The block `{ xs.push(item) }`. */
  function PushBody(item: string, xs: string): Node
  {
    Block([Call(Via(Property(Ident(xs), "push")), [Ident(item)])], None)
  }

  /** A loop over `xs` whose body pushes onto `xs` never reaches the end of the
      array, since the length is read again before every iteration: whatever
      fuel it is given, it runs out. */
  lemma {:induction false} PushingLoopNeverEnds(fuel: nat, item: string, xs: string, addr: nat,
                                                i: nat, last: Value, env: Bindings, w: World)
    requires item != xs && xs in env && env[xs] == Ref(addr)
    requires addr < |w.heap| && w.heap[addr].ArrayObj? && i < |w.heap[addr].elems|
    ensures EvalFor(fuel, item, None, addr, PushBody(item, xs), i, last, env, w).outcome == Abrupt(Thrown(OutOfFuel))
    decreases fuel
  {
    if fuel > 0 {
      var elems := Elements(w.heap, addr);
      var scope := IterationScope(env, item, None, elems[i], i);
      assert scope[xs] == Ref(addr) && scope[item] == elems[i];
      var call := Call(Via(Property(Ident(xs), "push")), [Ident(item)]);
      assert EvalEach(fuel, [Ident(item)], [], scope, w) == Res(Normal([elems[i]]), scope, w) by {
        assert [Ident(item)][1..] == [];
        assert [] + [elems[i]] == [elems[i]];
      }
      var w' := Push(w, addr, [elems[i]]);
      assert EvalCall(fuel, Via(Property(Ident(xs), "push")), [elems[i]], scope, w) == Res(Normal(Ref(addr)), scope, w');
      assert Eval(fuel, call, scope, w) == Res(Normal(Ref(addr)), scope, w');
      assert EvalBlock(fuel, [call], Null, scope, w) == Res(Normal(Ref(addr)), scope, w') by {
        assert [call][1..] == [];
      }
      PushingLoopNeverEnds(fuel - 1, item, xs, addr, i + 1, Ref(addr), env, w');
    }
  }

  /** The `for` statement over such an array: it never completes. */
  lemma PushingForStatementNeverEnds(fuel: nat, item: string, xs: string, env: Bindings, w: World)
    requires item != xs && xs in env && IsArray(w.heap, env[xs]) && w.heap[env[xs].addr].elems != []
    ensures Eval(fuel, For(item, None, Expr(Ident(xs)), PushBody(item, xs)), env, w).outcome
            == Abrupt(Thrown(OutOfFuel))
  {
    PushingLoopNeverEnds(fuel, item, xs, env[xs].addr, 0, Null, env, w);
  }

  /** An assignment binds its name to the value it returns; any other binding
      it changes is one its right-hand side assigns. A function literal is
      stored without running its body, and cannot replace a built-in. */
  lemma AssignmentEffect(fuel: nat, x: string, e: Node, env: Bindings, w: World)
    ensures var r := Eval(fuel, Assignment(x, e), env, w);
            && (r.outcome.Normal? ==> x in r.env && r.env[x] == r.outcome.value)
            && EnvFrame(env, r.env, {x} + (if e.FunctionLit? then {} else Assigned(e)))
    ensures e.FunctionLit? && x in Builtins ==>
              Eval(fuel, Assignment(x, e), env, w) == Res(Abrupt(Thrown(CannotRedefine(x))), env, w)
    ensures e.FunctionLit? && x !in Builtins ==>
              Eval(fuel, Assignment(x, e), env, w)
              == Res(Normal(Ref(|w.heap|)), env[x := Ref(|w.heap|)],
                     World(w.heap + [FunctionObj(e.params, e.body)], w.output))
  {
    EvalFrame(fuel, Assignment(x, e), env, w);
  }

  /** A block with one more statement: the longer block runs the shorter one
      and, when that completes, the new statement in the environment and world
      it left; the block's value is then that statement's value. */
  lemma {:induction false} BlockSnoc(fuel: nat, ss: seq<Node>, s: Node, last: Value, env: Bindings, w: World)
    ensures var a := EvalBlock(fuel, ss, last, env, w);
            EvalBlock(fuel, ss + [s], last, env, w)
            == if a.outcome.Abrupt? then a else Eval(fuel, s, a.env, a.world)
    decreases |ss|
  {
    if ss == [] {
      assert ss + [s] == [s] && [s][1..] == [];
    } else {
      assert (ss + [s])[0] == ss[0] && (ss + [s])[1..] == ss[1..] + [s];
      var a := Eval(fuel, ss[0], env, w);
      if a.outcome.Normal? {
        BlockSnoc(fuel, ss[1..], s, a.outcome.value, a.env, a.world);
      }
    }
  }

  /** A function body that starts with `return e` ends the call with the value
      of `e`: the statements after it never run, and the caller's environment
      comes back unchanged. An error thrown while evaluating `e` escapes as it is. */
  lemma ReturnEndsCall(fuel: nat, params: seq<string>, e: Node, rest: seq<Node>, last: Option<Node>,
                       argv: seq<Value>, env: Bindings, w: World)
    requires fuel > 0
    ensures var a := Eval(fuel - 1, e, BindParams(env, params, argv, 0), w);
            var r := CallUser(fuel, params, Block([Return(e)] + rest, last), argv, env, w);
            && (a.outcome.Normal? ==> r == Res(a.outcome, env, a.world))
            && (a.outcome.Abrupt? && a.outcome.signal.Thrown? ==> r == Res(a.outcome, env, a.world))
  {
    var local := BindParams(env, params, argv, 0);
    var ss := [Return(e)] + rest;
    assert ss[0] == Return(e);
    var a := Eval(fuel - 1, e, local, w);
    var b := Eval(fuel - 1, Return(e), local, w);
    assert b.outcome.Abrupt? && b.world == a.world;
    assert EvalBlock(fuel - 1, ss, Null, local, w) == b;
  }
}
