/**
  `evaluate` of src/evaluator.js as the source runs it: an environment object
  whose bindings statements update in place, and a runtime holding the store of
  arrays and function records and the output channel. Every method is proved
  to do exactly what the function of the same case in module Semantics says.
 */
module Evaluator {
  import opened Syntax
  import opened Values
  import opened Semantics

  /** A scope object: assignments write into `vars`; a function call or loop
      iteration works on a fresh copy. */
  class Environment {
    var vars: Bindings

    constructor (vars: Bindings)
      ensures this.vars == vars
    {
      this.vars := vars;
    }
  }

  class Runtime {
    var heap: seq<Obj>
    var output: seq<Line>

    constructor ()
      ensures heap == [] && output == []
    {
      heap := [];
      output := [];
    }

    function State(): World
      reads this
    {
      World(heap, output)
    }

    /** Stores a new object and returns a reference to it. */
    method Allocate(obj: Obj) returns (v: Value)
      modifies this
      ensures (v, State()) == Alloc(old(State()), obj)
    {
      v := Ref(|heap|);
      heap := heap + [obj];
    }

    method Evaluate(fuel: nat, node: Node, env: Environment) returns (o: Outcome<Value>)
      modifies this, env
      ensures Res(o, env.vars, State()) == Eval(fuel, node, old(env.vars), old(State()))
      decreases fuel, Size(node), 0
    {
      match node
      case NumLit(x) => o := Normal(Num(x));
      case StrLit(s) => o := Normal(Str(s));
      case BoolLit(b) => o := Normal(Bool(b));
      case NullLit => o := Normal(Null);
      case Ident(x) =>
        if x !in env.vars {
          o := Abrupt(Thrown(UndefinedVariable(x)));
        } else {
          o := Normal(env.vars[x]);
        }
      case Binary(op, l, r) =>
        var left := Evaluate(fuel, l, env);
        if left.Abrupt? { return left; }
        var right := Evaluate(fuel, r, env);
        if right.Abrupt? { return right; }
        o := ApplyOperator(op, left.value, right.value);
      case ArrayLit(es) =>
        var values := EvaluateEach(fuel, es, env);
        if values.Abrupt? { return Abrupt(values.signal); }
        var v := Allocate(ArrayObj(values.value));
        o := Normal(v);
      case Index(_, _) => o := Abrupt(Thrown(UnknownNodeType("index")));
      case Property(obj, prop) =>
        var target := Evaluate(fuel, obj, env);
        if target.Abrupt? { return target; }
        o := PropertyOf(heap, target.value, prop);
      case Assignment(x, e) =>
        var value;
        if e.FunctionLit? {
          if x in Builtins { return Abrupt(Thrown(CannotRedefine(x))); }
          value := Allocate(FunctionObj(e.params, e.body));
        } else {
          var v := Evaluate(fuel, e, env);
          if v.Abrupt? { return v; }
          value := v.value;
        }
        env.vars := env.vars[x := value];
        o := Normal(value);
      case FunctionLit(_, _) => o := Abrupt(Thrown(FunctionNotAssigned));
      case Call(callee, args) =>
        var argv := EvaluateEach(fuel, args, env);
        if argv.Abrupt? { return Abrupt(argv.signal); }
        o := EvaluateCall(fuel, callee, argv.value, env);
      case Block(ss, _) => o := EvaluateBlock(fuel, ss, env);
      case If(c, t, e) =>
        var condition := Evaluate(fuel, c, env);
        if condition.Abrupt? { return condition; }
        if Truthy(condition.value) {
          o := Evaluate(fuel, t, env);
        } else if e.Some? {
          o := Evaluate(fuel, e.value, env);
        } else {
          o := Normal(Null);
        }
      case For(item, index, it, body) =>
        if it.RawName? { return Abrupt(Thrown(UnknownNodeType("undefined"))); }
        var iterable := Evaluate(fuel, it.node, env);
        if iterable.Abrupt? { return iterable; }
        if !IsArray(heap, iterable.value) {
          return Abrupt(Thrown(ExpectedIterable(TypeOf(iterable.value))));
        }
        o := EvaluateFor(fuel, item, index, iterable.value.addr, body, env);
      case Return(e) =>
        var v := Evaluate(fuel, e, env);
        if v.Abrupt? { return v; }
        o := Abrupt(ReturnSignal(v.value));
    }

    /** `nodes.map(n => evaluate(n, environment, functions))`. */
    method EvaluateEach(fuel: nat, nodes: seq<Node>, env: Environment) returns (o: Outcome<seq<Value>>)
      modifies this, env
      ensures Res(o, env.vars, State()) == EvalEach(fuel, nodes, [], old(env.vars), old(State()))
      decreases fuel, SizeAll(nodes), 1
    {
      var values: seq<Value> := [];
      var rest := nodes;
      while rest != []
        invariant SizeAll(rest) <= SizeAll(nodes)
        invariant EvalEach(fuel, rest, values, env.vars, State())
                  == EvalEach(fuel, nodes, [], old(env.vars), old(State()))
        decreases |rest|
      {
        var v := Evaluate(fuel, rest[0], env);
        if v.Abrupt? { return Abrupt(v.signal); }
        values := values + [v.value];
        rest := rest[1..];
      }
      o := Normal(values);
    }

    /** The statements of a block, each in the block's environment. */
    method EvaluateBlock(fuel: nat, stmts: seq<Node>, env: Environment) returns (o: Outcome<Value>)
      modifies this, env
      ensures Res(o, env.vars, State()) == EvalBlock(fuel, stmts, Null, old(env.vars), old(State()))
      decreases fuel, SizeAll(stmts), 1
    {
      var result := Null;
      var rest := stmts;
      while rest != []
        invariant SizeAll(rest) <= SizeAll(stmts)
        invariant EvalBlock(fuel, rest, result, env.vars, State())
                  == EvalBlock(fuel, stmts, Null, old(env.vars), old(State()))
        decreases |rest|
      {
        var r := Evaluate(fuel, rest[0], env);
        if r.Abrupt? { return r; }
        result := r.value;
        rest := rest[1..];
      }
      o := Normal(result);
    }

    /** The dispatch of the `call` case once its arguments are evaluated. */
    method EvaluateCall(fuel: nat, callee: Callee, argv: seq<Value>, env: Environment) returns (o: Outcome<Value>)
      modifies this, env
      ensures Res(o, env.vars, State()) == EvalCall(fuel, callee, argv, old(env.vars), old(State()))
      decreases fuel, CalleeSize(callee), 1
    {
      if callee.Via? && callee.node.Property? {
        assert Size(callee.node.obj) < CalleeSize(callee);
        var obj := Evaluate(fuel, callee.node.obj, env);
        if obj.Abrupt? { return obj; }
        if IsArray(heap, obj.value) && callee.node.prop == "push" {
          heap := heap[obj.value.addr := ArrayObj(heap[obj.value.addr].elems + argv)];
          return Normal(obj.value);
        }
        return MethodFailure(obj.value, callee.node.prop);
      }
      if callee.Via? && callee.node.Ident? && callee.node.name in Builtins {
        o := CallBuiltin(callee.node.name, argv);
        return;
      }
      if callee.Via? && callee.node.Ident? && callee.node.name in env.vars
         && IsFunction(heap, env.vars[callee.node.name]) {
        var fn := heap[env.vars[callee.node.name].addr];
        o := CallUser(fuel, fn.params, fn.body, argv, env);
        return;
      }
      o := Abrupt(Thrown(UnknownFunction(CalleeName(callee))));
    }

    /** The entries of `scriptFunctions`, writing to this runtime's output. */
    method CallBuiltin(name: string, args: seq<Value>) returns (o: Outcome<Value>)
      requires name in Builtins
      modifies this
      ensures (o, State()) == Values.CallBuiltin(name, args, old(State()))
    {
      if name == "print" {
        if |args| < 1 { return Abrupt(Thrown(MissingArgument)); }
        output := output + [Printed(args, heap)];
        var v := Allocate(ArrayObj(args));
        return Normal(v);
      } else if name == "typeof" {
        var x := ArgAt(args, 0);
        if x == Null { return Normal(Str("null")); }
        return Normal(Str(TypeOf(x)));
      } else if name == "isFart" {
        return Normal(Bool(ArgAt(args, 0) == Str("fart")));
      } else if name == "array" {
        var length := ArgAt(args, 0);
        if !length.Num? { return Abrupt(Thrown(ExpectedNumber(TypeOf(length)))); }
        if length.n < 0 || length.n >= MaxArrayLength { return Abrupt(Thrown(InvalidArrayLength)); }
        var v := Allocate(ArrayObj(seq(length.n, _ => ArgAt(args, 1))));
        return Normal(v);
      }
      o := Abrupt(Thrown(Unmodelled(name)));
    }

    /** A user-function call: parameters are bound in a copy of the caller's
        environment, and a thrown `return` ends the body with its value. */
    method CallUser(fuel: nat, params: seq<string>, body: Node, argv: seq<Value>, env: Environment)
      returns (o: Outcome<Value>)
      modifies this
      ensures Res(o, env.vars, State()) == Semantics.CallUser(fuel, params, body, argv, env.vars, old(State()))
      decreases fuel, 0, 0
    {
      if fuel == 0 { return Abrupt(Thrown(OutOfFuel)); }
      var local := new Environment(env.vars);
      var i := 0;
      while i < |params|
        invariant i <= |params| && State() == old(State())
        invariant BindParams(local.vars, params, argv, i) == BindParams(env.vars, params, argv, 0)
      {
        local.vars := local.vars[params[i] := ArgAt(argv, i)];
        i := i + 1;
      }
      var result := Evaluate(fuel - 1, body, local);
      o := Caught(result);
    }

    /** The `for` case once its iterable is known to be the array at `addr`. */
    method EvaluateFor(fuel: nat, item: string, index: Option<string>, addr: nat, body: Node, env: Environment)
      returns (o: Outcome<Value>)
      modifies this
      ensures Res(o, env.vars, State()) == EvalFor(fuel, item, index, addr, body, 0, Null, env.vars, old(State()))
      decreases fuel, Size(body), 1
    {
      var result := Null;
      var i := 0;
      var f: nat := fuel;
      while i < |Elements(heap, addr)|
        invariant f <= fuel
        invariant EvalFor(f, item, index, addr, body, i, result, env.vars, State())
                  == EvalFor(fuel, item, index, addr, body, 0, Null, env.vars, old(State()))
        decreases f
      {
        if f == 0 { return Abrupt(Thrown(OutOfFuel)); }
        var local := new Environment(env.vars);
        local.vars := local.vars[item := Elements(heap, addr)[i]];
        if index.Some? && index.value != "" {
          local.vars := local.vars[index.value := Num(i)];
        }
        var r := Evaluate(f, body, local);
        if r.Abrupt? { return r; }
        result := r.value;
        i := i + 1;
        f := f - 1;
      }
      o := Normal(result);
    }
  }
}
