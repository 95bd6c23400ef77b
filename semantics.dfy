/**
  The meaning of `evaluate` in src/evaluator.js as a function on values.

  `Eval(fuel, n, env, w)` evaluates node `n` in environment `env` with store and
  output `w` and returns the outcome together with the new environment and world.
  A JavaScript exception (an error, or the object a `return` throws) is an
  `Abrupt` outcome; whatever was changed before it was thrown stays changed.
  User functions and loops may run forever in the source, so each user-function
  call and each loop iteration spends one unit of `fuel`; running out is the
  outcome `OutOfFuel`.
 */
module Semantics {
  import opened Syntax
  import opened Values

  datatype Res<+T> = Res(outcome: Outcome<T>, env: Bindings, world: World)

  function Eval(fuel: nat, n: Node, env: Bindings, w: World): Res<Value>
    decreases fuel, Size(n), 0
  {
    match n
    case NumLit(x) => Res(Normal(Num(x)), env, w)
    case StrLit(s) => Res(Normal(Str(s)), env, w)
    case BoolLit(b) => Res(Normal(Bool(b)), env, w)
    case NullLit => Res(Normal(Null), env, w)
    case Ident(x) =>
      Res(if x in env then Normal(env[x]) else Abrupt(Thrown(UndefinedVariable(x))), env, w)
    case Binary(op, l, r) =>
      var a := Eval(fuel, l, env, w);
      if a.outcome.Abrupt? then a
      else
        var b := Eval(fuel, r, a.env, a.world);
        if b.outcome.Abrupt? then b
        else Res(ApplyOperator(op, a.outcome.value, b.outcome.value), b.env, b.world)
    case ArrayLit(es) =>
      var vs := EvalEach(fuel, es, [], env, w);
      if vs.outcome.Abrupt? then Res(Abrupt(vs.outcome.signal), vs.env, vs.world)
      else
        var (ref, w') := Alloc(vs.world, ArrayObj(vs.outcome.value));
        Res(Normal(ref), vs.env, w')
    case Index(_, _) => Res(Abrupt(Thrown(UnknownNodeType("index"))), env, w)
    case Property(obj, prop) =>
      var a := Eval(fuel, obj, env, w);
      if a.outcome.Abrupt? then a
      else Res(PropertyOf(a.world.heap, a.outcome.value, prop), a.env, a.world)
    case Assignment(x, e) =>
      if e.FunctionLit? then
        if x in Builtins then Res(Abrupt(Thrown(CannotRedefine(x))), env, w)
        else
          var (ref, w') := Alloc(w, FunctionObj(e.params, e.body));
          Res(Normal(ref), env[x := ref], w')
      else
        var a := Eval(fuel, e, env, w);
        if a.outcome.Abrupt? then a
        else Res(a.outcome, a.env[x := a.outcome.value], a.world)
    case FunctionLit(_, _) => Res(Abrupt(Thrown(FunctionNotAssigned)), env, w)
    case Call(callee, args) =>
      var vs := EvalEach(fuel, args, [], env, w);
      if vs.outcome.Abrupt? then Res(Abrupt(vs.outcome.signal), vs.env, vs.world)
      else EvalCall(fuel, callee, vs.outcome.value, vs.env, vs.world)
    case Block(ss, _) => EvalBlock(fuel, ss, Null, env, w)
    case If(c, t, e) =>
      var a := Eval(fuel, c, env, w);
      if a.outcome.Abrupt? then a
      else if Truthy(a.outcome.value) then Eval(fuel, t, a.env, a.world)
      else if e.Some? then Eval(fuel, e.value, a.env, a.world)
      else Res(Normal(Null), a.env, a.world)
    case For(item, index, it, body) =>
      if it.RawName? then Res(Abrupt(Thrown(UnknownNodeType("undefined"))), env, w)
      else
        var a := Eval(fuel, it.node, env, w);
        if a.outcome.Abrupt? then a
        else if !IsArray(a.world.heap, a.outcome.value) then
          Res(Abrupt(Thrown(ExpectedIterable(TypeOf(a.outcome.value)))), a.env, a.world)
        else EvalFor(fuel, item, index, a.outcome.value.addr, body, 0, Null, a.env, a.world)
    case Return(e) =>
      var a := Eval(fuel, e, env, w);
      if a.outcome.Abrupt? then a
      else Res(Abrupt(ReturnSignal(a.outcome.value)), a.env, a.world)
  }

  /** Evaluates `ns` left to right, appending their values to `acc`; the first
      abrupt outcome stops it. */
  function EvalEach(fuel: nat, ns: seq<Node>, acc: seq<Value>, env: Bindings, w: World): Res<seq<Value>>
    decreases fuel, SizeAll(ns), 1
  {
    if ns == [] then Res(Normal(acc), env, w)
    else
      var a := Eval(fuel, ns[0], env, w);
      if a.outcome.Abrupt? then Res(Abrupt(a.outcome.signal), a.env, a.world)
      else EvalEach(fuel, ns[1..], acc + [a.outcome.value], a.env, a.world)
  }

  /** The statements of a block in order, in the block's own environment; the
      value is the last statement's, or `last` when there are none left. */
  function EvalBlock(fuel: nat, ss: seq<Node>, last: Value, env: Bindings, w: World): Res<Value>
    decreases fuel, SizeAll(ss), 1
  {
    if ss == [] then Res(Normal(last), env, w)
    else
      var a := Eval(fuel, ss[0], env, w);
      if a.outcome.Abrupt? then a
      else EvalBlock(fuel, ss[1..], a.outcome.value, a.env, a.world)
  }

  /** The call dispatch, after the arguments are evaluated: `push` on an array,
      a built-in, then a user function; a call with no callee node is unknown. */
  function EvalCall(fuel: nat, callee: Callee, argv: seq<Value>, env: Bindings, w: World): Res<Value>
    decreases fuel, CalleeSize(callee), 1
  {
    if callee.Via? && callee.node.Property? then
      assert Size(callee.node.obj) < CalleeSize(callee);
      var a := Eval(fuel, callee.node.obj, env, w);
      if a.outcome.Abrupt? then a
      else if IsArray(a.world.heap, a.outcome.value) && callee.node.prop == "push" then
        Res(Normal(a.outcome.value), a.env, Push(a.world, a.outcome.value.addr, argv))
      else Res(MethodFailure(a.outcome.value, callee.node.prop), a.env, a.world)
    else if callee.Via? && callee.node.Ident? && callee.node.name in Builtins then
      var (o, w') := CallBuiltin(callee.node.name, argv, w);
      Res(o, env, w')
    else if callee.Via? && callee.node.Ident? && callee.node.name in env
            && IsFunction(w.heap, env[callee.node.name]) then
      var fn := w.heap[env[callee.node.name].addr];
      CallUser(fuel, fn.params, fn.body, argv, env, w)
    else
      Res(Abrupt(Thrown(UnknownFunction(CalleeName(callee)))), env, w)
  }

  /** The name an "unknown function" error reports. */
  function CalleeName(callee: Callee): Option<string>
  {
    if callee.Via? && callee.node.Ident? then Some(callee.node.name)
    else if callee.Via? && callee.node.Property? then Some(callee.node.prop)
    else None
  }

  /** The environment a user-function body runs in: a copy of the caller's with
      each parameter bound to its argument, from index `i` on; a missing
      argument is undefined and a later parameter of the same name wins. */
  function BindParams(local: Bindings, params: seq<string>, argv: seq<Value>, i: nat): Bindings
    decreases |params| - i
  {
    if i >= |params| then local
    else BindParams(local[params[i] := ArgAt(argv, i)], params, argv, i + 1)
  }

  /** A `return` signal ends the call with its value; anything else propagates. */
  function Caught(o: Outcome<Value>): (r: Outcome<Value>)
    ensures o.Abrupt? && o.signal.ReturnSignal? ==> r == Normal(o.signal.value)
    ensures !(o.Abrupt? && o.signal.ReturnSignal?) ==> r == o
    ensures r.Abrupt? ==> r.signal.Thrown?
  {
    if o.Abrupt? && o.signal.ReturnSignal? then Normal(o.signal.value) else o
  }

  /** A user-function call: the body runs in a copy of the caller's environment,
      so the caller's bindings come back unchanged; the store and output keep
      what the body did to them. */
  function CallUser(fuel: nat, params: seq<string>, body: Node, argv: seq<Value>, env: Bindings, w: World): (r: Res<Value>)
    ensures r.env == env
    ensures r.outcome.Abrupt? ==> r.outcome.signal.Thrown?
    ensures fuel == 0 ==> r.outcome == Abrupt(Thrown(OutOfFuel)) && r.world == w
    ensures fuel > 0 ==>
              var b := Eval(fuel - 1, body, BindParams(env, params, argv, 0), w);
              && r.world == b.world
              && (b.outcome.Normal? ==> r.outcome == b.outcome)
              && (b.outcome.Abrupt? && b.outcome.signal.ReturnSignal? ==> r.outcome == Normal(b.outcome.signal.value))
              && (b.outcome.Abrupt? && b.outcome.signal.Thrown? ==> r.outcome == b.outcome)
    decreases fuel, 0, 0
  {
    if fuel == 0 then Res(Abrupt(Thrown(OutOfFuel)), env, w)
    else
      var b := Eval(fuel - 1, body, BindParams(env, params, argv, 0), w);
      Res(Caught(b.outcome), env, b.world)
  }

  /** The scope of one loop iteration: a copy of the enclosing environment with
      the item bound and, when the loop names a non-empty index, the index. */
  function IterationScope(env: Bindings, item: string, index: Option<string>, v: Value, i: nat): Bindings
  {
    var local := env[item := v];
    if index.Some? && index.value != "" then local[index.value := Num(i)] else local
  }

  /** A `for` loop from iteration `i` on, over the array at `addr`, whose length
      is read again before every iteration. */
  function EvalFor(fuel: nat, item: string, index: Option<string>, addr: nat, body: Node,
                   i: nat, last: Value, env: Bindings, w: World): (r: Res<Value>)
    ensures r.env == env
    decreases fuel, Size(body), 1
  {
    var elems := Elements(w.heap, addr);
    if i >= |elems| then Res(Normal(last), env, w)
    else if fuel == 0 then Res(Abrupt(Thrown(OutOfFuel)), env, w)
    else
      var b := Eval(fuel, body, IterationScope(env, item, index, elems[i], i), w);
      if b.outcome.Abrupt? then Res(b.outcome, env, b.world)
      else EvalFor(fuel - 1, item, index, addr, body, i + 1, b.outcome.value, env, b.world)
  }
}
