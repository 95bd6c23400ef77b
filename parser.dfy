/**
  The `Parser` class of src/parser.js: a token sequence and a cursor `pos` that
  only moves forward. Every parsing method is proved to return what the
  corresponding function of module Grammar returns, and to leave the cursor
  where that function says the construct ends.
 */
module Parsing {
  import opened Syntax
  import opened Grammar

  /** A method's result and final cursor agree with a grammar step. */
  ghost predicate Agrees<T>(r: Result<T, ParseError>, s: Step<T>, pos: nat)
  {
    match s
    case Ok(v, n) => r == Success(v) && pos == n
    case Fail(e) => r == Failure(e)
  }

  class Parser {
    const tokens: seq<Token>
    var pos: nat

    ghost predicate Valid()
      reads this
    {
      pos <= |tokens|
    }

    constructor (tokens: seq<Token>)
      ensures Valid() && this.tokens == tokens && pos == 0
    {
      this.tokens := tokens;
      pos := 0;
    }

    /** `peek`: the token under the cursor, absent past the end. */
    function Peek(): (t: Option<Token>)
      reads this
      ensures t.Some? <==> pos < |tokens|
      ensures t.Some? ==> t.value == tokens[pos]
    {
      if pos < |tokens| then Some(tokens[pos]) else None
    }

    /** `consume`: succeeds exactly when a token is present and matches the given
        kind (unless empty) and text (unless absent); it then moves the cursor
        past that token. On failure the cursor stays put. */
    method Consume(kind: string, want: Option<string>) returns (r: Result<Token, ParseError>)
      requires Valid()
      modifies this
      ensures Valid()
      ensures Agrees(r, ConsumeAt(tokens, old(pos), kind, want), pos)
      ensures r.Success? <==> old(pos) < |tokens| && (kind == "" || tokens[old(pos)].kind == kind)
                              && (want.None? || tokens[old(pos)].value == want.value)
      ensures r.Success? ==> r.value == tokens[old(pos)] && pos == old(pos) + 1
      ensures r.Failure? ==> pos == old(pos)
    {
      var token := Peek();
      if token.None? || (kind != "" && token.value.kind != kind) || (want.Some? && token.value.value != want.value) {
        return Failure(Expected(want, if token.Some? then Some(token.value.value) else None));
      }
      pos := pos + 1;
      return Success(token.value);
    }

    /** `parse`. */
    method Parse() returns (r: Result<seq<Node>, ParseError>)
      requires Valid()
      modifies this
      ensures Valid()
      ensures Agrees(r, StatementsFrom(tokens, old(pos), []), pos)
    {
      var ast: seq<Node> := [];
      while pos < |tokens|
        invariant Valid()
        invariant StatementsFrom(tokens, pos, ast) == StatementsFrom(tokens, old(pos), [])
        decreases |tokens| - pos
      {
        if tokens[pos].kind == "semicolon" {
          var _ := Consume("semicolon", None);
          continue;
        }
        var s := ParseExpression();
        if s.Failure? {
          return Failure(s.error);
        }
        ast := ast + [s.value];
      }
      return Success(ast);
    }

    /** `parseExpression`. */
    method ParseExpression() returns (r: Result<Node, ParseError>)
      requires Valid()
      modifies this
      ensures Valid()
      ensures Agrees(r, ExpressionAt(tokens, old(pos)), pos)
      decreases |tokens| - pos, 6
    {
      var token := Peek();
      if token.None? {
        return Failure(NoToken);
      }
      if token.value.kind == "identifier" && pos + 1 < |tokens| && tokens[pos + 1].value == "=" {
        r := ParseAssignment();
        return;
      }
      if token.value.kind == "keyword" {
        if token.value.value == "if" {
          r := ParseIfStatement();
          return;
        } else if token.value.value == "for" {
          r := ParseForLoop();
          return;
        }
      }
      r := ParseComparison();
    }

    /** `parseAssignment`. */
    method ParseAssignment() returns (r: Result<Node, ParseError>)
      requires Valid()
      modifies this
      ensures Valid()
      ensures Agrees(r, AssignmentAt(tokens, old(pos)), pos)
      decreases |tokens| - pos, 5
    {
      var id := Consume("identifier", None);
      if id.Failure? {
        return Failure(id.error);
      }
      var eq := Consume("operator", Some("="));
      if eq.Failure? {
        return Failure(eq.error);
      }
      var next := Peek();
      if next.Some? && next.value.kind == "parenthesis" && next.value.value == "(" {
        r := ParseFunctionDefinition(id.value.value);
        return;
      }
      var e := ParseExpression();
      if e.Failure? {
        return Failure(e.error);
      }
      return Success(Assignment(id.value.value, e.value));
    }

    /** `parseComparison`. */
    method ParseComparison() returns (r: Result<Node, ParseError>)
      requires Valid()
      modifies this
      ensures Valid()
      ensures Agrees(r, ComparisonAt(tokens, old(pos)), pos)
      decreases |tokens| - pos, 5
    {
      var left := ParseAdditive();
      if left.Failure? {
        return left;
      }
      var node := left.value;
      while pos < |tokens| && tokens[pos].kind == "comparator"
        invariant Valid() && old(pos) < pos
        invariant ComparisonRest(tokens, node, pos) == ComparisonAt(tokens, old(pos))
        decreases |tokens| - pos
      {
        var op := Consume("comparator", None);
        var right := ParseAdditive();
        if right.Failure? {
          return right;
        }
        node := Binary(op.value.value, node, right.value);
      }
      return Success(node);
    }

    /** `parseAdditive`. */
    method ParseAdditive() returns (r: Result<Node, ParseError>)
      requires Valid()
      modifies this
      ensures Valid()
      ensures Agrees(r, AdditiveAt(tokens, old(pos)), pos)
      decreases |tokens| - pos, 4
    {
      var left := ParseMultiplicative();
      if left.Failure? {
        return left;
      }
      var node := left.value;
      while pos < |tokens| && tokens[pos].kind == "operator" && (tokens[pos].value == "+" || tokens[pos].value == "-")
        invariant Valid() && old(pos) < pos
        invariant AdditiveRest(tokens, node, pos) == AdditiveAt(tokens, old(pos))
        decreases |tokens| - pos
      {
        var op := Consume("operator", None);
        var right := ParseMultiplicative();
        if right.Failure? {
          return right;
        }
        node := Binary(op.value.value, node, right.value);
      }
      return Success(node);
    }

    /** `parseMultiplicative`. */
    method ParseMultiplicative() returns (r: Result<Node, ParseError>)
      requires Valid()
      modifies this
      ensures Valid()
      ensures Agrees(r, MultiplicativeAt(tokens, old(pos)), pos)
      decreases |tokens| - pos, 3
    {
      var left := ParsePrimary();
      if left.Failure? {
        return left;
      }
      var node := left.value;
      while pos < |tokens| && tokens[pos].kind == "operator" && (tokens[pos].value == "*" || tokens[pos].value == "/")
        invariant Valid() && old(pos) < pos
        invariant MultiplicativeRest(tokens, node, pos) == MultiplicativeAt(tokens, old(pos))
        decreases |tokens| - pos
      {
        var op := Consume("operator", None);
        var right := ParsePrimary();
        if right.Failure? {
          return right;
        }
        node := Binary(op.value.value, node, right.value);
      }
      return Success(node);
    }

    /** `parseFunctionCall`: its argument loop is the one of `parseFunctionCallArgs`. */
    method ParseFunctionCall(name: string) returns (r: Result<Node, ParseError>)
      requires Valid()
      modifies this
      ensures Valid()
      ensures Agrees(r, FunctionCallAt(tokens, old(pos), name), pos)
      decreases |tokens| - pos, 1
    {
      var args := ParseFunctionCallArgs();
      if args.Failure? {
        return Failure(args.error);
      }
      return Success(Call(NameOnly(name), args.value));
    }

    /** `parseFunctionCallArgs`. */
    method ParseFunctionCallArgs() returns (r: Result<seq<Node>, ParseError>)
      requires Valid()
      modifies this
      ensures Valid()
      ensures Agrees(r, CallArgsAt(tokens, old(pos)), pos)
      decreases |tokens| - pos, 0
    {
      var open := Consume("parenthesis", Some("("));
      if open.Failure? {
        return Failure(open.error);
      }
      var args := ParseArgList(")");
      if args.Failure? {
        return args;
      }
      var close := Consume("parenthesis", Some(")"));
      if close.Failure? {
        return Failure(close.error);
      }
      return args;
    }

    /** The comma-separated expression loop of calls and array literals. */
    method ParseArgList(close: string) returns (r: Result<seq<Node>, ParseError>)
      requires Valid()
      modifies this
      ensures Valid()
      ensures Agrees(r, ArgListFrom(tokens, old(pos), [], close), pos)
      decreases |tokens| - pos, 7
    {
      var args: seq<Node> := [];
      while pos < |tokens| && tokens[pos].value != close
        invariant Valid() && old(pos) <= pos
        invariant ArgListFrom(tokens, pos, args, close) == ArgListFrom(tokens, old(pos), [], close)
        decreases |tokens| - pos
      {
        var e := ParseExpression();
        if e.Failure? {
          return Failure(e.error);
        }
        args := args + [e.value];
        var next := Peek();
        if next.None? {
          return Failure(NoToken);
        }
        if next.value.value == "," {
          var comma := Consume("comma", None);
          if comma.Failure? {
            return Failure(comma.error);
          }
        } else {
          assert ArgListFrom(tokens, old(pos), [], close) == Ok(args, pos);
          break;
        }
      }
      return Success(args);
    }

    /** `parseFunctionDefinition`. */
    method ParseFunctionDefinition(name: string) returns (r: Result<Node, ParseError>)
      requires Valid()
      modifies this
      ensures Valid()
      ensures Agrees(r, FunctionDefinitionAt(tokens, old(pos), name), pos)
      decreases |tokens| - pos, 0
    {
      var open := Consume("parenthesis", Some("("));
      if open.Failure? {
        return Failure(open.error);
      }
      ghost var start := pos;
      var params: seq<string> := [];
      while pos < |tokens| && tokens[pos].value != ")"
        invariant Valid() && start <= pos
        invariant ParamListFrom(tokens, pos, params) == ParamListFrom(tokens, start, [])
        decreases |tokens| - pos
      {
        var paramToken := Consume("identifier", None);
        if paramToken.Failure? {
          return Failure(paramToken.error);
        }
        params := params + [paramToken.value.value];
        var next := Peek();
        if next.None? {
          return Failure(NoToken);
        }
        if next.value.value == "," {
          var comma := Consume("comma", None);
          if comma.Failure? {
            return Failure(comma.error);
          }
        } else {
          assert ParamListFrom(tokens, start, []) == Ok(params, pos);
          break;
        }
      }
      var close := Consume("parenthesis", Some(")"));
      if close.Failure? {
        return Failure(close.error);
      }
      var body := ParseBlock();
      if body.Failure? {
        return body;
      }
      return Success(Assignment(name, FunctionLit(params, body.value)));
    }

    /** `parseBlock`. */
    method ParseBlock() returns (r: Result<Node, ParseError>)
      requires Valid()
      modifies this
      ensures Valid()
      ensures Agrees(r, BlockAt(tokens, old(pos)), pos)
      decreases |tokens| - pos, 0
    {
      var open := Consume("bracket", Some("{"));
      if open.Failure? {
        return Failure(open.error);
      }
      ghost var start := pos;
      var statements: seq<Node> := [];
      while pos < |tokens| && tokens[pos].value != "}"
        invariant Valid() && start <= pos
        invariant BlockItemsFrom(tokens, pos, statements) == BlockItemsFrom(tokens, start, [])
        decreases |tokens| - pos
      {
        var statement := ParseExpression();
        if statement.Failure? {
          return statement;
        }
        statements := statements + [statement.value];
        var next := Peek();
        if next.Some? && next.value.kind == "semicolon" {
          var _ := Consume("semicolon", None);
        }
      }
      var close := Consume("bracket", Some("}"));
      if close.Failure? {
        return Failure(close.error);
      }
      return Success(Block(statements, LastOf(statements)));
    }

    /** `parseIfStatement`. */
    method ParseIfStatement() returns (r: Result<Node, ParseError>)
      requires Valid()
      modifies this
      ensures Valid()
      ensures Agrees(r, IfAt(tokens, old(pos)), pos)
      decreases |tokens| - pos, 5
    {
      var kw := Consume("keyword", Some("if"));
      if kw.Failure? {
        return Failure(kw.error);
      }
      var open := Consume("parenthesis", Some("("));
      if open.Failure? {
        return Failure(open.error);
      }
      var condition := ParseExpression();
      if condition.Failure? {
        return condition;
      }
      var close := Consume("parenthesis", Some(")"));
      if close.Failure? {
        return Failure(close.error);
      }
      var ifBlock := ParseBlock();
      if ifBlock.Failure? {
        return ifBlock;
      }
      var elseBlock := ParseElse();
      if elseBlock.Failure? {
        return Failure(elseBlock.error);
      }
      return Success(If(condition.value, ifBlock.value, elseBlock.value));
    }

    /** The `elseif` / `else` part of `parseIfStatement`, right after the then-block. */
    method ParseElse() returns (r: Result<Option<Node>, ParseError>)
      requires Valid()
      modifies this
      ensures Valid()
      ensures Agrees(r, ElseAt(tokens, old(pos)), pos)
      decreases |tokens| - pos, 0
    {
      var elseBlock: Option<Node> := None;
      var next := Peek();
      if next.Some? && next.value.kind == "keyword" {
        if next.value.value == "elseif" {
          var _ := Consume("keyword", Some("elseif"));
          var open := Consume("parenthesis", Some("("));
          if open.Failure? {
            return Failure(open.error);
          }
          var condition := ParseExpression();
          if condition.Failure? {
            return Failure(condition.error);
          }
          var close := Consume("parenthesis", Some(")"));
          if close.Failure? {
            return Failure(close.error);
          }
          var block := ParseBlock();
          if block.Failure? {
            return Failure(block.error);
          }
          elseBlock := Some(If(condition.value, block.value, None));
        } else if next.value.value == "else" {
          var _ := Consume("keyword", Some("else"));
          var after := Peek();
          if after.None? {
            return Failure(NoToken);
          }
          var branch;
          if after.value.value == "{" {
            branch := ParseBlock();
          } else {
            branch := ParseIfStatement();
          }
          if branch.Failure? {
            return Failure(branch.error);
          }
          elseBlock := Some(branch.value);
        }
      }
      return Success(elseBlock);
    }

    /** `parseForLoop`. */
    method ParseForLoop() returns (r: Result<Node, ParseError>)
      requires Valid()
      modifies this
      ensures Valid()
      ensures Agrees(r, ForAt(tokens, old(pos)), pos)
      decreases |tokens| - pos, 5
    {
      var kw := Consume("keyword", Some("for"));
      if kw.Failure? {
        return Failure(kw.error);
      }
      var open := Consume("parenthesis", Some("("));
      if open.Failure? {
        return Failure(open.error);
      }
      var itemToken := Consume("identifier", None);
      if itemToken.Failure? {
        return Failure(itemToken.error);
      }
      var indexName := ParseForIndex();
      if indexName.Failure? {
        return Failure(indexName.error);
      }
      var close := Consume("parenthesis", Some(")"));
      if close.Failure? {
        return Failure(close.error);
      }
      var kwIn := Consume("keyword", Some("in"));
      if kwIn.Failure? {
        return Failure(kwIn.error);
      }
      var iterable := ParseIterable();
      if iterable.Failure? {
        return Failure(iterable.error);
      }
      var body := ParseBlock();
      if body.Failure? {
        return body;
      }
      return Success(For(itemToken.value.value, indexName.value, iterable.value, body.value));
    }

    /** The optional `, index` of a `for` header. */
    method ParseForIndex() returns (r: Result<Option<string>, ParseError>)
      requires Valid()
      modifies this
      ensures Valid()
      ensures Agrees(r, ForIndexAt(tokens, old(pos)), pos)
    {
      var next := Peek();
      if next.None? {
        return Failure(NoToken);
      }
      if next.value.kind == "comma" {
        var _ := Consume("comma", None);
        var indexToken := Consume("identifier", None);
        if indexToken.Failure? {
          return Failure(indexToken.error);
        }
        return Success(Some(indexToken.value.value));
      }
      return Success(None);
    }

    /** The iterable of a `for` header: a bare name, or any other expression. */
    method ParseIterable() returns (r: Result<Iterable, ParseError>)
      requires Valid()
      modifies this
      ensures Valid()
      ensures Agrees(r, IterableAt(tokens, old(pos)), pos)
      decreases |tokens| - pos, 7
    {
      var first := Peek();
      if first.None? {
        return Failure(NoToken);
      }
      if first.value.kind == "identifier" {
        var name := Consume("identifier", None);
        return Success(RawName(name.value.value));
      }
      var e := ParseExpression();
      if e.Failure? {
        return Failure(e.error);
      }
      return Success(Expr(e.value));
    }

    /** `parsePrimary`, up to its postfix loop. */
    method ParsePrimary() returns (r: Result<Node, ParseError>)
      requires Valid()
      modifies this
      ensures Valid()
      ensures Agrees(r, PrimaryAt(tokens, old(pos)), pos)
      decreases |tokens| - pos, 2
    {
      var token := Peek();
      if token.None? {
        return Failure(NoToken);
      }
      var t := token.value;
      var node: Node;
      if t.kind == "number" {
        var _ := Consume("number", None);
        node := NumLit(NumberValue(t.value));
      } else if t.kind == "string" {
        var _ := Consume("string", None);
        node := StrLit(t.value);
      } else if t.kind == "boolean" {
        var _ := Consume("boolean", None);
        node := BoolLit(t.value != "");
      } else if t.kind == "identifier" {
        var _ := Consume("identifier", None);
        var next := Peek();
        if next.Some? && next.value.kind == "parenthesis" && next.value.value == "(" {
          r := ParseFunctionCall(t.value);
          return;
        }
        node := Ident(t.value);
      } else if t.kind == "parenthesis" && t.value == "(" {
        var inner := ParseParenthesized();
        if inner.Failure? {
          return inner;
        }
        node := inner.value;
      } else if t.kind == "bracket" && t.value == "{" {
        var block := ParseBlock();
        if block.Failure? {
          return block;
        }
        node := block.value;
      } else if t.kind == "squarebracket" && t.value == "[" {
        var literal := ParseArrayLiteral();
        if literal.Failure? {
          return literal;
        }
        node := literal.value;
      } else {
        return Failure(UnexpectedToken(t));
      }
      assert PrimaryHeadAt(tokens, old(pos)) == Ok(node, pos);
      r := ParsePostfix(node);
    }

    /** The `( expression )` case of `parsePrimary`. */
    method ParseParenthesized() returns (r: Result<Node, ParseError>)
      requires Valid() && pos < |tokens| && tokens[pos] == Token("parenthesis", "(")
      modifies this
      ensures Valid()
      ensures Agrees(r, PrimaryHeadAt(tokens, old(pos)), pos)
      decreases |tokens| - pos, 1
    {
      var _ := Consume("parenthesis", Some("("));
      var inner := ParseExpression();
      if inner.Failure? {
        return inner;
      }
      var close := Consume("parenthesis", Some(")"));
      if close.Failure? {
        return Failure(close.error);
      }
      r := inner;
    }

    /** The `[ elements ]` case of `parsePrimary`. */
    method ParseArrayLiteral() returns (r: Result<Node, ParseError>)
      requires Valid() && pos < |tokens| && tokens[pos] == Token("squarebracket", "[")
      modifies this
      ensures Valid()
      ensures Agrees(r, PrimaryHeadAt(tokens, old(pos)), pos)
      decreases |tokens| - pos, 1
    {
      var _ := Consume("squarebracket", Some("["));
      var values := ParseArgList("]");
      if values.Failure? {
        return Failure(values.error);
      }
      var close := Consume("squarebracket", Some("]"));
      if close.Failure? {
        return Failure(close.error);
      }
      r := Success(ArrayLit(values.value));
    }

    /** The postfix loop of `parsePrimary`. */
    method ParsePostfix(start: Node) returns (r: Result<Node, ParseError>)
      requires Valid()
      modifies this
      ensures Valid()
      ensures Agrees(r, PostfixFrom(tokens, start, old(pos)), pos)
      decreases |tokens| - pos, 1
    {
      var node := start;
      while true
        invariant Valid() && old(pos) <= pos
        invariant PostfixFrom(tokens, node, pos) == PostfixFrom(tokens, start, old(pos))
        decreases |tokens| - pos
      {
        var next := Peek();
        if next.None? {
          break;
        }
        if (next.value.kind == "parenthesis" && next.value.value == ")")
           || (next.value.kind == "bracket" && next.value.value == "}") {
          break;
        }
        if next.value.kind == "bracket" && next.value.value == "[" {
          var indexed := ParseIndexPostfix(node);
          if indexed.Failure? {
            return indexed;
          }
          node := indexed.value;
          continue;
        }
        if next.value.kind == "dot" {
          var member := ParsePropertyPostfix(node);
          if member.Failure? {
            return member;
          }
          node := member.value;
          continue;
        }
        break;
      }
      return Success(node);
    }

    /** One `[index]` postfix: on success the postfix loop goes on from the
        index node, past the `]`. */
    method ParseIndexPostfix(node: Node) returns (r: Result<Node, ParseError>)
      requires Valid() && pos < |tokens| && tokens[pos] == Token("bracket", "[")
      modifies this
      ensures Valid()
      ensures r.Failure? ==> PostfixFrom(tokens, node, old(pos)) == Fail(r.error)
      ensures r.Success? ==> old(pos) < pos && PostfixFrom(tokens, r.value, pos) == PostfixFrom(tokens, node, old(pos))
      decreases |tokens| - pos, 0
    {
      var _ := Consume("bracket", Some("["));
      var indexExpr := ParseExpression();
      if indexExpr.Failure? {
        return indexExpr;
      }
      var close := Consume("bracket", Some("]"));
      if close.Failure? {
        return Failure(close.error);
      }
      r := Success(Index(node, indexExpr.value));
    }

    /** One `.prop` or `.prop(args)` postfix: on success the postfix loop goes
        on from the property or method-call node. */
    method ParsePropertyPostfix(node: Node) returns (r: Result<Node, ParseError>)
      requires Valid() && pos < |tokens| && tokens[pos].kind == "dot"
      modifies this
      ensures Valid()
      ensures r.Failure? ==> PostfixFrom(tokens, node, old(pos)) == Fail(r.error)
      ensures r.Success? ==> old(pos) < pos && PostfixFrom(tokens, r.value, pos) == PostfixFrom(tokens, node, old(pos))
      decreases |tokens| - pos, 0
    {
      var _ := Consume("dot", None);
      var propToken := Consume("identifier", None);
      if propToken.Failure? {
        return Failure(propToken.error);
      }
      var after := Peek();
      if after.Some? && after.value.kind == "parenthesis" && after.value.value == "(" {
        var args := ParseFunctionCallArgs();
        if args.Failure? {
          return Failure(args.error);
        }
        r := Success(Call(Via(Property(node, propToken.value.value)), args.value));
      } else {
        r := Success(Property(node, propToken.value.value));
      }
    }
  }
}
