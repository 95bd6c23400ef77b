/**
  Properties of `interpret` and of the completion provider's names that hold
  for every program.
 */
module DriverFacts {
  import opened Syntax
  import opened Grammar
  import opened Values
  import opened Semantics
  import opened Driver
  import opened EvalFacts

  /** One statement of `interpret` after the ones before it: a statement that
      completes replaces the last result, one that fails keeps it and is
      reported with its one-based line. */
  function Next(fuel: nat, s: Node, line: nat, st: Session): Session
  {
    var r := Eval(fuel, s, st.env, st.world);
    if r.outcome.Normal? then Session(r.outcome.value, r.env, r.world)
    else Session(st.result, r.env, Report(r.world, line, r.outcome.signal))
  }

  /** The statement loop is a left fold of `Next`: running one more statement
      at the end is one more step after the run of the others. */
  lemma {:induction false} RunSnoc(fuel: nat, ast: seq<Node>, s: Node, i: nat, last: Value, env: Bindings, w: World)
    requires i <= |ast|
    ensures RunStatements(fuel, ast + [s], i, last, env, w)
            == Next(fuel, s, |ast| + 1, RunStatements(fuel, ast, i, last, env, w))
    decreases |ast| - i
  {
    var r := Eval(fuel, (ast + [s])[i], env, w);
    if i == |ast| {
      assert (ast + [s])[i] == s;
    } else {
      assert (ast + [s])[i] == ast[i];
      if r.outcome.Normal? {
        RunSnoc(fuel, ast, s, i + 1, r.outcome.value, r.env, r.world);
      } else {
        RunSnoc(fuel, ast, s, i + 1, last, r.env, Report(r.world, i + 1, r.outcome.signal));
      }
    }
  }

  /** A program one statement longer runs as the shorter one, then that statement. */
  lemma ProgramSnoc(fuel: nat, ast: seq<Node>, s: Node)
    ensures RunStatements(fuel, ast + [s], 0, Undefined, map[], World([], []))
            == Next(fuel, s, |ast| + 1, RunStatements(fuel, ast, 0, Undefined, map[], World([], [])))
  {
    RunSnoc(fuel, ast, s, 0, Undefined, map[], World([], []));
  }

  /** Reports are appended, never replace earlier output, carry the line of a
      statement that ran, and come in program order. */
  lemma {:induction false} ReportsInOrder(fuel: nat, ast: seq<Node>, i: nat, last: Value, env: Bindings, w: World)
    ensures var out := RunStatements(fuel, ast, i, last, env, w).world.output;
            && w.output <= out
            && (forall k :: |w.output| <= k < |out| && out[k].Reported? ==> i < out[k].line <= |ast|)
            && (forall k, k' :: |w.output| <= k < k' < |out| && out[k].Reported? && out[k'].Reported? ==>
                  out[k].line < out[k'].line)
    decreases |ast| - i
  {
    if i < |ast| {
      var r := Eval(fuel, ast[i], env, w);
      EvalFrame(fuel, ast[i], env, w);
      var w1 := if r.outcome.Normal? then r.world else Report(r.world, i + 1, r.outcome.signal);
      var last1 := if r.outcome.Normal? then r.outcome.value else last;
      assert RunStatements(fuel, ast, i, last, env, w) == RunStatements(fuel, ast, i + 1, last1, r.env, w1);
      ReportsInOrder(fuel, ast, i + 1, last1, r.env, w1);
      var out := RunStatements(fuel, ast, i, last, env, w).world.output;
      assert w.output <= w1.output <= out;
      forall k | |w.output| <= k < |w1.output| && out[k].Reported?
        ensures out[k] == Reported(i + 1, r.outcome.signal) && k == |w1.output| - 1
      {
        assert out[k] == w1.output[k];
      }
    }
  }

  /** The final environment differs from the starting one only at names the
      remaining statements assign, and loses no binding. */
  lemma {:induction false} RunEnvFrame(fuel: nat, ast: seq<Node>, i: nat, last: Value, env: Bindings, w: World)
    requires i <= |ast|
    ensures EnvFrame(env, RunStatements(fuel, ast, i, last, env, w).env, AssignedAll(ast[i..]))
    decreases |ast| - i
  {
    if i < |ast| {
      var r := Eval(fuel, ast[i], env, w);
      EvalFrame(fuel, ast[i], env, w);
      var w1 := if r.outcome.Normal? then r.world else Report(r.world, i + 1, r.outcome.signal);
      var last1 := if r.outcome.Normal? then r.outcome.value else last;
      assert RunStatements(fuel, ast, i, last, env, w) == RunStatements(fuel, ast, i + 1, last1, r.env, w1);
      RunEnvFrame(fuel, ast, i + 1, last1, r.env, w1);
      EnvFrameTrans(env, r.env, RunStatements(fuel, ast, i + 1, last1, r.env, w1).env,
                    Assigned(ast[i]), AssignedAll(ast[i + 1..]));
      assert ast[i..][0] == ast[i] && ast[i..][1..] == ast[i + 1..];
    } else {
      assert ast[i..] == [];
    }
  }

  /** When no statement from `i` on fails, every top-level assignment among
      them has bound its name by the end. */
  lemma {:induction false} CleanRunBindsAssignments(fuel: nat, ast: seq<Node>, i: nat, last: Value, env: Bindings, w: World)
    requires i <= |ast|
    ensures var s := RunStatements(fuel, ast, i, last, env, w);
            (forall k :: |w.output| <= k < |s.world.output| ==> s.world.output[k].Printed?) ==>
              forall j :: i <= j < |ast| && ast[j].Assignment? ==> ast[j].name in s.env
    decreases |ast| - i
  {
    if i < |ast| {
      var r := Eval(fuel, ast[i], env, w);
      EvalFrame(fuel, ast[i], env, w);
      var w1 := if r.outcome.Normal? then r.world else Report(r.world, i + 1, r.outcome.signal);
      var last1 := if r.outcome.Normal? then r.outcome.value else last;
      var s := RunStatements(fuel, ast, i + 1, last1, r.env, w1);
      assert RunStatements(fuel, ast, i, last, env, w) == s;
      CleanRunBindsAssignments(fuel, ast, i + 1, last1, r.env, w1);
      RunEnvFrame(fuel, ast, i + 1, last1, r.env, w1);
      ReportsInOrder(fuel, ast, i + 1, last1, r.env, w1);
      if r.outcome.Abrupt? {
        var k := |r.world.output|;
        assert s.world.output[k] == w1.output[k] == Reported(i + 1, r.outcome.signal);
      } else if ast[i].Assignment? {
        assert ast[i].name in r.env;
      }
    }
  }

  /** Every reported line of a run is the line of one of the program's
      statements, in program order, and the run binds only names its
      statements assign. */
  lemma RunFacts(fuel: nat, tokens: seq<Token>)
    requires ProgramOf(tokens).Ok?
    ensures var ast := ProgramOf(tokens).value;
            var s := Run(fuel, tokens).value;
            && (forall k :: 0 <= k < |s.world.output| && s.world.output[k].Reported? ==>
                  1 <= s.world.output[k].line <= |ast|)
            && (forall k, k' ::
                  (0 <= k < k' < |s.world.output| && s.world.output[k].Reported? && s.world.output[k'].Reported?)
                  ==> s.world.output[k].line < s.world.output[k'].line)
            && s.env.Keys <= AssignedAll(ast)
  {
    var ast := ProgramOf(tokens).value;
    ReportsInOrder(fuel, ast, 0, Undefined, map[], World([], []));
    RunEnvFrame(fuel, ast, 0, Undefined, map[], World([], []));
    assert ast[0..] == ast;
  }

  /** The names the completion provider offers are all bound after a run in
      which no statement fails. */
  lemma CompletionNamesBoundAfterCleanRun(fuel: nat, tokens: seq<Token>)
    requires ProgramOf(tokens).Ok?
    requires forall k :: 0 <= k < |Run(fuel, tokens).value.world.output| ==>
               Run(fuel, tokens).value.world.output[k].Printed?
    ensures forall x :: x in AssignmentNames(ProgramOf(tokens).value) ==> x in Run(fuel, tokens).value.env
  {
    CleanRunBindsAssignments(fuel, ProgramOf(tokens).value, 0, Undefined, map[], World([], []));
  }

  /** The names of two programs in a row are the names of the first followed
      by those of the second: source order is kept and nothing is merged or
      dropped, so a name assigned twice is offered twice. */
  lemma {:induction false} AssignmentNamesAppend(a: seq<Node>, b: seq<Node>)
    ensures AssignmentNames(a + b) == AssignmentNames(a) + AssignmentNames(b)
    decreases |b|
  {
    if b == [] {
      assert a + b == a;
    } else {
      var b' := b[..|b| - 1];
      assert (a + b)[..|a + b| - 1] == a + b';
      assert (a + b)[|a + b| - 1] == b[|b| - 1];
      AssignmentNamesAppend(a, b');
    }
  }

  /** One statement contributes its name exactly when it is an assignment. */
  lemma AssignmentNamesOne(s: Node)
    ensures AssignmentNames([s]) == if s.Assignment? then [s.name] else []
  {
    assert [s][..0] == [];
  }
}
