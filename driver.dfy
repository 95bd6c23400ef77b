/**
  The two uses extension.js makes of the parser and evaluator: `interpret`,
  which runs a program statement by statement and reports each failing one
  without stopping, and the completion provider's collection of the names that
  top-level assignments define.
 */
module Driver {
  import opened Syntax
  import opened Grammar
  import opened Values
  import opened Semantics
  import opened Parsing
  import opened Evaluator

  /** What `interpret` returns, with the output channel's lines beside it. */
  datatype Session = Session(result: Value, env: Bindings, world: World)

  /** The statement loop of `interpret` from statement `i` on: a statement that
      completes sets the last result, one that fails adds an "Error at line"
      report, and the environment keeps what every statement did to it. */
  function RunStatements(fuel: nat, ast: seq<Node>, i: nat, last: Value, env: Bindings, w: World): Session
    decreases |ast| - i
  {
    if i >= |ast| then Session(last, env, w)
    else
      var r := Eval(fuel, ast[i], env, w);
      if r.outcome.Normal? then RunStatements(fuel, ast, i + 1, r.outcome.value, r.env, r.world)
      else RunStatements(fuel, ast, i + 1, last, r.env, Report(r.world, i + 1, r.outcome.signal))
  }

  function Report(w: World, line: nat, signal: Signal): World
  {
    World(w.heap, w.output + [Reported(line, signal)])
  }

  /** `interpret`: a parse error escapes before any statement runs. */
  function Run(fuel: nat, tokens: seq<Token>): Result<Session, ParseError>
  {
    var ast := ProgramOf(tokens);
    if ast.Fail? then Failure(ast.error)
    else Success(RunStatements(fuel, ast.value, 0, Undefined, map[], World([], [])))
  }

  method Interpret(fuel: nat, tokens: seq<Token>) returns (r: Result<Session, ParseError>)
    ensures r == Run(fuel, tokens)
  {
    var parser := new Parser(tokens);
    var ast := parser.Parse();
    if ast.Failure? { return Failure(ast.error); }
    var statements := ast.value;
    var lastResult := Undefined;
    var environment := new Environment(map[]);
    var runtime := new Runtime();
    var i := 0;
    while i < |statements|
      invariant i <= |statements|
      invariant RunStatements(fuel, statements, i, lastResult, environment.vars, runtime.State())
                == RunStatements(fuel, statements, 0, Undefined, map[], World([], []))
    {
      var o := runtime.Evaluate(fuel, statements[i], environment);
      if o.Normal? {
        lastResult := o.value;
      } else {
        runtime.output := runtime.output + [Reported(i + 1, o.signal)];
      }
      i := i + 1;
    }
    r := Success(Session(lastResult, environment.vars, runtime.State()));
  }

  /** The names of the top-level assignments, in program order. */
  function AssignmentNames(ast: seq<Node>): (names: seq<string>)
    ensures forall x :: x in names <==> exists i :: 0 <= i < |ast| && ast[i].Assignment? && ast[i].name == x
    ensures |names| <= |ast|
  {
    if ast == [] then []
    else
      var front := ast[..|ast| - 1];
      var rest := AssignmentNames(front);
      assert forall i :: 0 <= i < |ast| - 1 ==> ast[i] == front[i];
      if ast[|ast| - 1].Assignment? then rest + [ast[|ast| - 1].name] else rest
  }

  /** The variable names the completion provider offers; nothing when the
      program does not parse. */
  method DeclaredNames(tokens: seq<Token>) returns (variables: seq<string>)
    ensures ProgramOf(tokens).Ok? ==> variables == AssignmentNames(ProgramOf(tokens).value)
    ensures ProgramOf(tokens).Fail? ==> variables == []
  {
    variables := [];
    var parser := new Parser(tokens);
    var ast := parser.Parse();
    if ast.Failure? { return; }
    var i := 0;
    while i < |ast.value|
      invariant i <= |ast.value|
      invariant variables == AssignmentNames(ast.value[..i])
    {
      assert ast.value[..i + 1][..i] == ast.value[..i];
      if ast.value[i].Assignment? {
        variables := variables + [ast.value[i].name];
      }
      i := i + 1;
    }
    assert ast.value[..i] == ast.value;
  }
}
