/**
  What the grammar of src/parser.js makes of whole families of token sequences:
  numerals read back as the numbers they spell, operator chains nest to the
  left, `*` and `/` bind tighter than `+` and `-`, a definition's parameters are
  its identifiers in order, and an array literal keeps its elements in order.
 */
module GrammarFacts {
  import opened Syntax
  import opened Grammar

  /** The decimal numeral of `n`, as the tokenizer would hand it over. */
  function Numeral(n: nat): (s: string)
    ensures |s| >= 1 && forall i :: 0 <= i < |s| ==> '0' <= s[i] <= '9'
  {
    if n < 10 then [('0' as int + n) as char]
    else Numeral(n / 10) + [('0' as int + n % 10) as char]
  }

  function NumberToken(n: nat): Token
  {
    Token("number", Numeral(n))
  }

  /** A number token is read as the number it spells. */
  lemma {:induction false} NumeralValue(n: nat)
    ensures NumberValue(Numeral(n)) == n
  {
    var s := Numeral(n);
    if n < 10 {
      assert s[..|s| - 1] == [];
    } else {
      NumeralValue(n / 10);
      assert s[..|s| - 1] == Numeral(n / 10);
    }
  }

  /** A position where an operand ends: nothing there continues it (no index,
      property or operator). */
  predicate OperandEnds(toks: seq<Token>, q: nat)
  {
    q >= |toks| || (toks[q].kind !in {"dot", "operator", "comparator"} && toks[q] != Token("bracket", "["))
  }

  /** A number token standing alone is a primary. */
  lemma NumberPrimary(toks: seq<Token>, p: nat, n: nat)
    requires p < |toks| && toks[p] == NumberToken(n)
    requires p + 1 == |toks| || (toks[p + 1] != Token("bracket", "[") && toks[p + 1].kind != "dot")
    ensures PrimaryAt(toks, p) == Ok(NumLit(n), p + 1)
  {
    NumeralValue(n);
    assert PrimaryHeadAt(toks, p) == Ok(NumLit(n), p + 1);
  }

  /** A number token followed by the end of an operand is a whole expression. */
  lemma NumberExpression(toks: seq<Token>, p: nat, n: nat)
    requires p < |toks| && toks[p] == NumberToken(n) && OperandEnds(toks, p + 1)
    ensures ExpressionAt(toks, p) == Ok(NumLit(n), p + 1)
  {
    NumberPrimary(toks, p, n);
    assert MultiplicativeAt(toks, p) == Ok(NumLit(n), p + 1);
    assert AdditiveAt(toks, p) == Ok(NumLit(n), p + 1);
    assert ComparisonAt(toks, p) == Ok(NumLit(n), p + 1);
  }

  /** One `op operand` step of a chain. */
  datatype Term = Term(op: string, operand: nat)

  function TermTokens(terms: seq<Term>): (r: seq<Token>)
    ensures |r| == 2 * |terms|
  {
    if terms == [] then []
    else [Token("operator", terms[0].op), NumberToken(terms[0].operand)] + TermTokens(terms[1..])
  }

  /** The tokens of `first op1 n1 op2 n2 ...`. */
  function ChainTokens(first: nat, terms: seq<Term>): seq<Token>
  {
    [NumberToken(first)] + TermTokens(terms)
  }

  /** The left-nested tree `(((acc op1 n1) op2 n2) ...)`. */
  function Nest(acc: Node, terms: seq<Term>): Node
    decreases |terms|
  {
    if terms == [] then acc
    else Nest(Binary(terms[0].op, acc, NumLit(terms[0].operand)), terms[1..])
  }

  predicate AllOps(terms: seq<Term>, ops: set<string>)
  {
    forall i :: 0 <= i < |terms| ==> terms[i].op in ops
  }

  lemma TermTokensSplit(toks: seq<Token>, p: nat, q: nat, terms: seq<Term>)
    requires p <= q <= |toks| && toks[p..q] == TermTokens(terms) && terms != []
    ensures p + 2 <= q
    ensures toks[p] == Token("operator", terms[0].op) && toks[p + 1] == NumberToken(terms[0].operand)
    ensures toks[p + 2..q] == TermTokens(terms[1..])
  {
    assert toks[p..q][0] == toks[p] && toks[p..q][1] == toks[p + 1];
    assert toks[p + 2..q] == toks[p..q][2..];
  }

  /** A slice that is a concatenation splits where its first part ends. */
  lemma SplitAt<T>(s: seq<T>, p: nat, q: nat, a: seq<T>, b: seq<T>)
    requires p <= q <= |s| && s[p..q] == a + b
    ensures s[p..p + |a|] == a && s[p + |a|..q] == b
  {
    SliceOfSlice(s, p, q, 0, |a|);
    SliceOfSlice(s, p, q, |a|, q - p);
    assert (a + b)[0..|a|] == a && (a + b)[|a|..q - p] == b;
  }

  lemma SliceOfSlice<T>(s: seq<T>, p: nat, q: nat, i: nat, j: nat)
    requires p <= q <= |s| && i <= j <= q - p
    ensures s[p..q][i..j] == s[p + i..p + j]
  {
    var a, b := s[p..q][i..j], s[p + i..p + j];
    assert |a| == |b|;
    forall k | 0 <= k < |a| ensures a[k] == b[k] {
      assert a[k] == s[p..q][i + k] == s[p + i + k];
    }
  }

  lemma AllOpsTail(terms: seq<Term>, ops: set<string>)
    requires terms != [] && AllOps(terms, ops)
    ensures AllOps(terms[1..], ops)
  {
    forall i | 0 <= i < |terms[1..]| ensures terms[1..][i].op in ops {
      assert terms[1..][i] == terms[i + 1];
    }
  }

  /** `+` and `-` chains nest to the left, up to the first token that does not
      continue the operand. */
  lemma {:induction false} AdditiveChainFrom(toks: seq<Token>, p: nat, q: nat, acc: Node, terms: seq<Term>)
    requires p <= q <= |toks| && toks[p..q] == TermTokens(terms) && AllOps(terms, {"+", "-"})
    requires OperandEnds(toks, q)
    ensures AdditiveRest(toks, acc, p) == Ok(Nest(acc, terms), q)
    decreases terms
  {
    if terms == [] {
      assert p == q;
    } else {
      TermTokensSplit(toks, p, q, terms);
      AllOpsTail(terms, {"+", "-"});
      if terms[1..] != [] {
        TermTokensSplit(toks, p + 2, q, terms[1..]);
        assert terms[1..][0].op in {"+", "-"};
      }
      var n := terms[0].operand;
      NumberPrimary(toks, p + 1, n);
      assert MultiplicativeAt(toks, p + 1) == Ok(NumLit(n), p + 2);
      AdditiveChainFrom(toks, p + 2, q, Binary(terms[0].op, acc, NumLit(n)), terms[1..]);
    }
  }

  /** A position where a product ends: nothing there continues its last
      factor, and no `*` or `/` follows. */
  predicate ProductEnds(toks: seq<Token>, q: nat)
  {
    q >= |toks| || (toks[q].kind != "dot" && toks[q] != Token("bracket", "[") && !IsMultiplicativeOp(toks[q]))
  }

  /** `*` and `/` chains nest to the left, up to the first token that does not
      continue the product. */
  lemma {:induction false} MultiplicativeChainFrom(toks: seq<Token>, p: nat, q: nat, acc: Node, terms: seq<Term>)
    requires p <= q <= |toks| && toks[p..q] == TermTokens(terms) && AllOps(terms, {"*", "/"})
    requires ProductEnds(toks, q)
    ensures MultiplicativeRest(toks, acc, p) == Ok(Nest(acc, terms), q)
    decreases terms
  {
    if terms == [] {
      assert p == q;
    } else {
      TermTokensSplit(toks, p, q, terms);
      AllOpsTail(terms, {"*", "/"});
      if terms[1..] != [] {
        TermTokensSplit(toks, p + 2, q, terms[1..]);
      }
      var n := terms[0].operand;
      NumberPrimary(toks, p + 1, n);
      MultiplicativeChainFrom(toks, p + 2, q, Binary(terms[0].op, acc, NumLit(n)), terms[1..]);
    }
  }

  /** A product `n0 op1 n1 op2 n2 ...` of numbers joined by `*` and `/`. */
  datatype Product = Product(first: nat, factors: seq<Term>)

  function ProductTokens(f: Product): (r: seq<Token>)
    ensures |r| == 1 + 2 * |f.factors|
  {
    ChainTokens(f.first, f.factors)
  }

  function ProductTree(f: Product): Node
  {
    Nest(NumLit(f.first), f.factors)
  }

  /** One `+ product` or `- product` step of a sum. */
  datatype Summand = Summand(op: string, product: Product)

  function SummandTokens(ss: seq<Summand>): seq<Token>
    decreases |ss|
  {
    if ss == [] then []
    else [Token("operator", ss[0].op)] + ProductTokens(ss[0].product) + SummandTokens(ss[1..])
  }

  /** The left-nested tree `((acc op1 f1) op2 f2) ...` of the summands' products. */
  function SumNest(acc: Node, ss: seq<Summand>): Node
    decreases |ss|
  {
    if ss == [] then acc
    else SumNest(Binary(ss[0].op, acc, ProductTree(ss[0].product)), ss[1..])
  }

  /** Summands joined by `+` or `-`, whose products use only `*` and `/`. */
  predicate WellFormedSum(ss: seq<Summand>)
  {
    forall i :: 0 <= i < |ss| ==> ss[i].op in {"+", "-"} && AllOps(ss[i].product.factors, {"*", "/"})
  }

  /** A product is read as one left-nested tree. */
  lemma ProductAt(toks: seq<Token>, p: nat, q: nat, f: Product)
    requires p <= q <= |toks| && toks[p..q] == ProductTokens(f) && AllOps(f.factors, {"*", "/"})
    requires ProductEnds(toks, q)
    ensures MultiplicativeAt(toks, p) == Ok(ProductTree(f), q)
  {
    assert toks[p] == toks[p..q][0] == NumberToken(f.first);
    assert toks[p + 1..q] == toks[p..q][1..] == TermTokens(f.factors);
    if f.factors != [] {
      TermTokensSplit(toks, p + 1, q, f.factors);
    }
    NumberPrimary(toks, p, f.first);
    MultiplicativeChainFrom(toks, p + 1, q, NumLit(f.first), f.factors);
  }

  /** The first summand of a sum: its operator, then one product read as a
      whole up to the next summand. */
  lemma SummandHead(toks: seq<Token>, p: nat, q: nat, ss: seq<Summand>) returns (m: nat)
    requires p <= q <= |toks| && toks[p..q] == SummandTokens(ss) && WellFormedSum(ss) && ss != []
    requires OperandEnds(toks, q)
    ensures p < m <= q && toks[p] == Token("operator", ss[0].op) && ss[0].op in {"+", "-"}
    ensures MultiplicativeAt(toks, p + 1) == Ok(ProductTree(ss[0].product), m)
    ensures toks[m..q] == SummandTokens(ss[1..]) && WellFormedSum(ss[1..])
  {
    var f := ss[0].product;
    m := p + 1 + |ProductTokens(f)|;
    assert toks[p..q] == [Token("operator", ss[0].op)] + ProductTokens(f) + SummandTokens(ss[1..]);
    assert toks[p] == toks[p..q][0];
    assert q - p == 1 + |ProductTokens(f)| + |SummandTokens(ss[1..])|;
    assert toks[p..q][1..1 + |ProductTokens(f)|] == ProductTokens(f);
    SliceOfSlice(toks, p, q, 1, 1 + |ProductTokens(f)|);
    assert toks[p..q][1 + |ProductTokens(f)|..] == SummandTokens(ss[1..]);
    assert toks[m..q] == toks[p..q][1 + |ProductTokens(f)|..];
    assert WellFormedSum(ss[1..]) by {
      forall i | 0 <= i < |ss[1..]|
        ensures ss[1..][i].op in {"+", "-"} && AllOps(ss[1..][i].product.factors, {"*", "/"})
      {
        assert ss[1..][i] == ss[i + 1];
      }
    }
    if ss[1..] != [] {
      assert toks[m] == toks[m..q][0] == Token("operator", ss[1..][0].op);
    }
    ProductAt(toks, p + 1, m, f);
  }

  /** One `+ operand` or `- operand` step of the additive loop. */
  lemma AdditiveStep(toks: seq<Token>, p: nat, m: nat, acc: Node, op: string, n: Node)
    requires p < |toks| && toks[p] == Token("operator", op) && op in {"+", "-"}
    requires MultiplicativeAt(toks, p + 1) == Ok(n, m)
    ensures AdditiveRest(toks, acc, p) == AdditiveRest(toks, Binary(op, acc, n), m)
  {
  }

  /** After a first operand, a sum of products nests to the left with every
      product as one operand: `*` and `/` bind tighter than `+` and `-`. */
  lemma {:induction false} SumOfProductsFrom(toks: seq<Token>, p: nat, q: nat, acc: Node, ss: seq<Summand>)
    requires p <= q <= |toks| && toks[p..q] == SummandTokens(ss) && WellFormedSum(ss)
    requires OperandEnds(toks, q)
    ensures AdditiveRest(toks, acc, p) == Ok(SumNest(acc, ss), q)
    decreases |ss|
  {
    if ss == [] {
      assert p == q;
    } else {
      var m := SummandHead(toks, p, q, ss);
      var next := Binary(ss[0].op, acc, ProductTree(ss[0].product));
      AdditiveStep(toks, p, m, acc, ss[0].op, ProductTree(ss[0].product));
      SumOfProductsFrom(toks, m, q, next, ss[1..]);
    }
  }

  /** A sum of products `f0 op1 f1 op2 f2 ...`. */
  datatype Sum = Sum(head: Product, rest: seq<Summand>)

  function SumTokens(e: Sum): seq<Token>
  {
    ProductTokens(e.head) + SummandTokens(e.rest)
  }

  function SumTree(e: Sum): Node
  {
    SumNest(ProductTree(e.head), e.rest)
  }

  predicate WellFormed(e: Sum)
  {
    AllOps(e.head.factors, {"*", "/"}) && WellFormedSum(e.rest)
  }

  /** A whole sum of products, up to a token that ends it, is one expression:
      the sum of the products' trees, nested to the left. */
  lemma SumOfProductsExpression(toks: seq<Token>, p: nat, q: nat, e: Sum)
    requires p <= q <= |toks| && toks[p..q] == SumTokens(e) && WellFormed(e)
    requires OperandEnds(toks, q)
    ensures ExpressionAt(toks, p) == Ok(SumTree(e), q)
  {
    var m := SumHead(toks, p, q, e);
    SumOfProductsFrom(toks, m, q, ProductTree(e.head), e.rest);
    assert AdditiveAt(toks, p) == Ok(SumTree(e), q);
    assert ComparisonAt(toks, p) == Ok(SumTree(e), q);
  }

  /** The first product of a sum of products. */
  lemma SumHead(toks: seq<Token>, p: nat, q: nat, e: Sum) returns (m: nat)
    requires p <= q <= |toks| && toks[p..q] == SumTokens(e) && WellFormed(e)
    requires OperandEnds(toks, q)
    ensures p < m <= q && toks[p] == NumberToken(e.head.first)
    ensures MultiplicativeAt(toks, p) == Ok(ProductTree(e.head), m)
    ensures toks[m..q] == SummandTokens(e.rest) && WellFormedSum(e.rest)
  {
    m := p + |ProductTokens(e.head)|;
    SplitAt(toks, p, q, ProductTokens(e.head), SummandTokens(e.rest));
    assert toks[p] == toks[p..m][0] == NumberToken(e.head.first);
    FirstProduct(toks, p, m, q, e);
  }

  lemma FirstProduct(toks: seq<Token>, p: nat, m: nat, q: nat, e: Sum)
    requires p <= m <= q <= |toks| && toks[p..m] == ProductTokens(e.head) && toks[m..q] == SummandTokens(e.rest)
    requires WellFormed(e) && OperandEnds(toks, q)
    ensures MultiplicativeAt(toks, p) == Ok(ProductTree(e.head), m)
  {
    if e.rest != [] {
      assert toks[m] == toks[m..q][0] == Token("operator", e.rest[0].op);
      assert e.rest[0].op in {"+", "-"};
    }
    ProductAt(toks, p, m, e.head);
  }

  /** Statements, each a sum of products followed by a semicolon. */
  function StatementTokens(es: seq<Sum>): seq<Token>
    decreases |es|
  {
    if es == [] then []
    else SumTokens(es[0]) + [Token("semicolon", ";")] + StatementTokens(es[1..])
  }

  function SumTrees(es: seq<Sum>): (r: seq<Node>)
    ensures |r| == |es|
    decreases |es|
  {
    if es == [] then [] else [SumTree(es[0])] + SumTrees(es[1..])
  }

  predicate AllWellFormed(es: seq<Sum>)
    decreases |es|
  {
    es == [] || (WellFormed(es[0]) && AllWellFormed(es[1..]))
  }

  lemma SplitStatement(toks: seq<Token>, p: nat, q: nat, es: seq<Sum>) returns (m: nat)
    requires p <= q <= |toks| && toks[p..q] == StatementTokens(es) && es != []
    ensures p < m < q && m == p + |SumTokens(es[0])|
    ensures toks[p..m] == SumTokens(es[0]) && toks[m] == Token("semicolon", ";")
    ensures toks[m + 1..q] == StatementTokens(es[1..])
    ensures toks[p] == NumberToken(es[0].head.first)
  {
    m := p + |SumTokens(es[0])|;
    assert toks[p..q] == SumTokens(es[0]) + [Token("semicolon", ";")] + StatementTokens(es[1..]);
    assert toks[p..m] == toks[p..q][..m - p];
    assert toks[m] == toks[p..q][m - p];
    assert toks[m + 1..q] == toks[p..q][m - p + 1..];
    assert toks[p] == toks[p..m][0];
  }

  /** The first of a list of statements is one expression ending at its semicolon. */
  lemma StatementHead(toks: seq<Token>, p: nat, q: nat, es: seq<Sum>) returns (m: nat)
    requires p <= q <= |toks| && toks[p..q] == StatementTokens(es) && es != [] && AllWellFormed(es)
    ensures p < m < q && toks[m] == Token("semicolon", ";") && toks[m + 1..q] == StatementTokens(es[1..])
    ensures toks[p].kind == "number" && toks[p].value != "}"
    ensures ExpressionAt(toks, p) == Ok(SumTree(es[0]), m)
    ensures AllWellFormed(es[1..])
  {
    m := SplitStatement(toks, p, q, es);
    SumOfProductsExpression(toks, p, m, es[0]);
    assert toks[p].value == Numeral(es[0].head.first);
    assert Numeral(es[0].head.first)[0] != '}';
  }

  lemma TreesCons(acc: seq<Node>, es: seq<Sum>)
    requires es != []
    ensures acc + [SumTree(es[0])] + SumTrees(es[1..]) == acc + SumTrees(es)
  {
  }

  /** One statement followed by its semicolon. */
  lemma StatementStep(toks: seq<Token>, p: nat, m: nat, acc: seq<Node>, n: Node)
    requires p < m < |toks| && toks[p].kind == "number" && toks[m].kind == "semicolon"
    requires ExpressionAt(toks, p) == Ok(n, m)
    ensures StatementsFrom(toks, p, acc) == StatementsFrom(toks, m + 1, acc + [n])
  {
    assert StatementsFrom(toks, p, acc) == StatementsFrom(toks, m, acc + [n]);
  }

  /** `ns` are statements in a row from `p` to `q`: each begins with a number,
      is one expression, and ends at the semicolon `ends[i]`. */
  predicate StatementsAt(toks: seq<Token>, p: nat, q: nat, ns: seq<Node>, ends: seq<nat>)
    decreases |ns|
  {
    && |ns| == |ends| && p <= q <= |toks|
    && if ns == [] then p == q
       else
         && p < ends[0] < q && toks[p].kind == "number" && toks[p].value != "}"
         && toks[ends[0]].kind == "semicolon" && ExpressionAt(toks, p) == Ok(ns[0], ends[0])
         && StatementsAt(toks, ends[0] + 1, q, ns[1..], ends[1..])
  }

  /** The tokens of semicolon-terminated sums of products are those sums'
      trees in a row. */
  lemma {:induction false} SumStatements(toks: seq<Token>, p: nat, q: nat, es: seq<Sum>) returns (ends: seq<nat>)
    requires p <= q <= |toks| && toks[p..q] == StatementTokens(es) && AllWellFormed(es)
    ensures StatementsAt(toks, p, q, SumTrees(es), ends)
    decreases |es|
  {
    if es == [] {
      ends := [];
    } else {
      var m := StatementHead(toks, p, q, es);
      var tail := SumStatements(toks, m + 1, q, es[1..]);
      ends := [m] + tail;
      SumStatementsCons(toks, p, q, m, es, tail);
    }
  }

  lemma SumStatementsCons(toks: seq<Token>, p: nat, q: nat, m: nat, es: seq<Sum>, ends: seq<nat>)
    requires es != [] && p < m < q <= |toks| && toks[p].kind == "number" && toks[p].value != "}"
    requires toks[m] == Token("semicolon", ";") && ExpressionAt(toks, p) == Ok(SumTree(es[0]), m)
    requires StatementsAt(toks, m + 1, q, SumTrees(es[1..]), ends)
    ensures StatementsAt(toks, p, q, SumTrees(es), [m] + ends)
  {
    StatementsAtCons(toks, p, q, m, SumTree(es[0]), SumTrees(es[1..]), ends);
  }

  /** One more statement in front of statements in a row. */
  lemma StatementsAtCons(toks: seq<Token>, p: nat, q: nat, m: nat, n: Node, ns: seq<Node>, ends: seq<nat>)
    requires p < m < q <= |toks| && toks[p].kind == "number" && toks[p].value != "}" && toks[m].kind == "semicolon"
    requires ExpressionAt(toks, p) == Ok(n, m) && StatementsAt(toks, m + 1, q, ns, ends)
    ensures StatementsAt(toks, p, q, [n] + ns, [m] + ends)
  {
    assert ([n] + ns)[1..] == ns && ([m] + ends)[1..] == ends;
  }

  /** The statement loop of `parse` over statements in a row appends them in order. */
  lemma {:induction false} StatementsChain(toks: seq<Token>, p: nat, acc: seq<Node>, ns: seq<Node>, ends: seq<nat>)
    requires StatementsAt(toks, p, |toks|, ns, ends)
    ensures StatementsFrom(toks, p, acc) == Ok(acc + ns, |toks|)
    decreases |ns|
  {
    if ns == [] {
      assert acc + ns == acc;
    } else {
      StatementStep(toks, p, ends[0], acc, ns[0]);
      StatementsChain(toks, ends[0] + 1, acc + [ns[0]], ns[1..], ends[1..]);
      assert acc + [ns[0]] + ns[1..] == acc + ns;
    }
  }

  /** The statement loop of `parse` returns the statements in source order,
      each separator semicolon skipped. */
  lemma StatementsInOrder(toks: seq<Token>, p: nat, acc: seq<Node>, es: seq<Sum>)
    requires p <= |toks| && toks[p..] == StatementTokens(es)
    requires AllWellFormed(es)
    ensures StatementsFrom(toks, p, acc) == Ok(acc + SumTrees(es), |toks|)
  {
    assert toks[p..|toks|] == toks[p..];
    var ends := SumStatements(toks, p, |toks|, es);
    StatementsChain(toks, p, acc, SumTrees(es), ends);
  }

  /** A program of semicolon-terminated sums of products is those trees, in order. */
  lemma ProgramInOrder(es: seq<Sum>)
    requires AllWellFormed(es)
    ensures ProgramOf(StatementTokens(es)) == Ok(SumTrees(es), |StatementTokens(es)|)
  {
    var toks := StatementTokens(es);
    assert toks[0..] == toks;
    StatementsInOrder(toks, 0, [], es);
    assert [] + SumTrees(es) == SumTrees(es);
  }

  /** Runs of semicolons between statements are skipped. */
  lemma {:induction false} SemicolonsSkipped(toks: seq<Token>, p: nat, k: nat, acc: seq<Node>)
    requires p + k <= |toks| && forall i :: p <= i < p + k ==> toks[i].kind == "semicolon"
    ensures StatementsFrom(toks, p, acc) == StatementsFrom(toks, p + k, acc)
    decreases k
  {
    if k > 0 {
      SemicolonsSkipped(toks, p + 1, k - 1, acc);
    }
  }

  /** One block statement followed by its semicolon. */
  lemma BlockItemStep(toks: seq<Token>, p: nat, m: nat, acc: seq<Node>, n: Node)
    requires p < m < |toks| && toks[p].value != "}" && toks[m].kind == "semicolon"
    requires ExpressionAt(toks, p) == Ok(n, m)
    ensures BlockItemsFrom(toks, p, acc) == BlockItemsFrom(toks, m + 1, acc + [n])
  {
  }

  /** The statement loop of `parseBlock` over statements in a row appends them in order. */
  lemma {:induction false} BlockItemsChain(toks: seq<Token>, p: nat, q: nat, acc: seq<Node>, ns: seq<Node>, ends: seq<nat>)
    requires StatementsAt(toks, p, q, ns, ends) && q < |toks| && toks[q] == Token("bracket", "}")
    ensures BlockItemsFrom(toks, p, acc) == Ok(acc + ns, q)
    decreases |ns|
  {
    if ns == [] {
      assert acc + ns == acc;
    } else {
      BlockItemStep(toks, p, ends[0], acc, ns[0]);
      BlockItemsChain(toks, ends[0] + 1, q, acc + [ns[0]], ns[1..], ends[1..]);
      assert acc + [ns[0]] + ns[1..] == acc + ns;
    }
  }

  /** The statement loop of `parseBlock` returns the statements in source
      order, each one's semicolon skipped. */
  lemma BlockItemsInOrder(toks: seq<Token>, p: nat, q: nat, acc: seq<Node>, es: seq<Sum>)
    requires p <= q < |toks| && toks[p..q] == StatementTokens(es) && toks[q] == Token("bracket", "}")
    requires AllWellFormed(es)
    ensures BlockItemsFrom(toks, p, acc) == Ok(acc + SumTrees(es), q)
  {
    var ends := SumStatements(toks, p, q, es);
    BlockItemsChain(toks, p, q, acc, SumTrees(es), ends);
  }

  /** `{ s1; s2; ... }` is one block of those statements in order, whose value
      is the last of them. */
  lemma BlockInOrder(es: seq<Sum>)
    requires AllWellFormed(es)
    ensures var toks := [Token("bracket", "{")] + StatementTokens(es) + [Token("bracket", "}")];
            BlockAt(toks, 0) == Ok(Block(SumTrees(es), LastOf(SumTrees(es))), |toks|)
  {
    var toks := [Token("bracket", "{")] + StatementTokens(es) + [Token("bracket", "}")];
    assert toks[1..|toks| - 1] == StatementTokens(es);
    BracedStatements(toks, es);
  }

  lemma BracedStatements(toks: seq<Token>, es: seq<Sum>)
    requires 2 <= |toks| && toks[0] == Token("bracket", "{") && toks[|toks| - 1] == Token("bracket", "}")
    requires toks[1..|toks| - 1] == StatementTokens(es) && AllWellFormed(es)
    ensures BlockAt(toks, 0) == Ok(Block(SumTrees(es), LastOf(SumTrees(es))), |toks|)
  {
    var q := |toks| - 1;
    BlockItemsInOrder(toks, 1, q, [], es);
    assert [] + SumTrees(es) == SumTrees(es);
    BlockOfItems(toks, 0, q, SumTrees(es));
  }

  /** Braces around statements that the statement loop reads up to the
      closing brace make one block. */
  lemma BlockOfItems(toks: seq<Token>, p: nat, q: nat, ns: seq<Node>)
    requires p < q < |toks| && toks[p] == Token("bracket", "{") && toks[q] == Token("bracket", "}")
    requires BlockItemsFrom(toks, p + 1, []) == Ok(ns, q)
    ensures BlockAt(toks, p) == Ok(Block(ns, LastOf(ns)), q + 1)
  {
  }

  /** `.p1.p2 ... .pk` as dot and identifier tokens. */
  function PropTokens(props: seq<string>): (r: seq<Token>)
    ensures |r| == 2 * |props|
    decreases |props|
  {
    if props == [] then []
    else [Token("dot", "."), Token("identifier", props[0])] + PropTokens(props[1..])
  }

  /** `((node.p1).p2) ... .pk`. */
  function Props(node: Node, props: seq<string>): Node
    decreases |props|
  {
    if props == [] then node else Props(Property(node, props[0]), props[1..])
  }

  /** A position where the postfix loop stops and does not turn the last
      property into a method call. */
  predicate PostfixStops(toks: seq<Token>, q: nat)
  {
    q >= |toks| || (toks[q].kind != "dot" && toks[q] != Token("bracket", "[") && toks[q] != Token("parenthesis", "("))
  }

  /** The postfix loop reads a chain of property accesses as property nodes
      nested to the left, and stops at the first token that continues none. */
  lemma {:induction false} PropertyChain(toks: seq<Token>, p: nat, q: nat, node: Node, props: seq<string>)
    requires p <= q <= |toks| && toks[p..q] == PropTokens(props) && PostfixStops(toks, q)
    ensures PostfixFrom(toks, node, p) == Ok(Props(node, props), q)
    decreases |props|
  {
    if props == [] {
      assert p == q;
    } else {
      assert toks[p] == toks[p..q][0] && toks[p + 1] == toks[p..q][1];
      assert toks[p + 2..q] == toks[p..q][2..] == PropTokens(props[1..]);
      if props[1..] != [] {
        assert toks[p + 2] == toks[p + 2..q][0];
      }
      PropertyChain(toks, p + 2, q, Property(node, props[0]), props[1..]);
    }
  }

  /** A program made of one `+`/`-` chain is one left-nested statement. */
  lemma AdditiveChainProgram(first: nat, terms: seq<Term>)
    requires AllOps(terms, {"+", "-"})
    ensures ProgramOf(ChainTokens(first, terms)) == Ok([Nest(NumLit(first), terms)], |ChainTokens(first, terms)|)
  {
    var toks := ChainTokens(first, terms);
    assert toks[1..|toks|] == TermTokens(terms);
    if terms != [] {
      TermTokensSplit(toks, 1, |toks|, terms);
    }
    NumberPrimary(toks, 0, first);
    assert MultiplicativeAt(toks, 0) == Ok(NumLit(first), 1);
    AdditiveChainFrom(toks, 1, |toks|, NumLit(first), terms);
    var e := Nest(NumLit(first), terms);
    assert AdditiveAt(toks, 0) == Ok(e, |toks|);
    assert ComparisonAt(toks, 0) == Ok(e, |toks|);
    assert ExpressionAt(toks, 0) == Ok(e, |toks|);
    assert [] + [e] == [e];
    assert StatementsFrom(toks, |toks|, [] + [e]) == Ok([e], |toks|);
    assert StatementsFrom(toks, 0, []) == Ok([e], |toks|);
  }

  /** A program made of one `*`/`/` chain is one left-nested statement. */
  lemma MultiplicativeChainProgram(first: nat, terms: seq<Term>)
    requires AllOps(terms, {"*", "/"})
    ensures ProgramOf(ChainTokens(first, terms)) == Ok([Nest(NumLit(first), terms)], |ChainTokens(first, terms)|)
  {
    var toks := ChainTokens(first, terms);
    assert toks[1..|toks|] == TermTokens(terms);
    if terms != [] {
      TermTokensSplit(toks, 1, |toks|, terms);
    }
    NumberPrimary(toks, 0, first);
    MultiplicativeChainFrom(toks, 1, |toks|, NumLit(first), terms);
    var e := Nest(NumLit(first), terms);
    assert MultiplicativeAt(toks, 0) == Ok(e, |toks|);
    assert AdditiveAt(toks, 0) == Ok(e, |toks|);
    assert ComparisonAt(toks, 0) == Ok(e, |toks|);
    assert ExpressionAt(toks, 0) == Ok(e, |toks|);
    assert [] + [e] == [e];
    assert StatementsFrom(toks, |toks|, [] + [e]) == Ok([e], |toks|);
    assert StatementsFrom(toks, 0, []) == Ok([e], |toks|);
  }

  /** `a + b * c` groups as `a + (b * c)`, and `a * b + c` as `(a * b) + c`. */
  lemma ProductBindsTighter(a: nat, b: nat, c: nat, add: string, mul: string)
    requires add in {"+", "-"} && mul in {"*", "/"}
    ensures ExpressionAt(ChainTokens(a, [Term(add, b), Term(mul, c)]), 0)
            == Ok(Binary(add, NumLit(a), Binary(mul, NumLit(b), NumLit(c))), 5)
    ensures ExpressionAt(ChainTokens(a, [Term(mul, b), Term(add, c)]), 0)
            == Ok(Binary(add, Binary(mul, NumLit(a), NumLit(b)), NumLit(c)), 5)
  {
    ProductOnTheRight(a, b, c, add, mul);
    ProductOnTheLeft(a, b, c, add, mul);
  }

  lemma ProductOnTheRight(a: nat, b: nat, c: nat, add: string, mul: string)
    requires add in {"+", "-"} && mul in {"*", "/"}
    ensures ExpressionAt(ChainTokens(a, [Term(add, b), Term(mul, c)]), 0)
            == Ok(Binary(add, NumLit(a), Binary(mul, NumLit(b), NumLit(c))), 5)
  {
    var t := ChainTokens(a, [Term(add, b), Term(mul, c)]);
    TwoTerms(a, Term(add, b), Term(mul, c));
    NumberPrimary(t, 0, a);
    NumberPrimary(t, 2, b);
    assert t[3..5] == TermTokens([Term(mul, c)]);
    MultiplicativeChainFrom(t, 3, 5, NumLit(b), [Term(mul, c)]);
    var product := Binary(mul, NumLit(b), NumLit(c));
    assert MultiplicativeAt(t, 2) == Ok(product, 5);
    assert MultiplicativeAt(t, 0) == Ok(NumLit(a), 1);
    assert AdditiveRest(t, Binary(add, NumLit(a), product), 5) == Ok(Binary(add, NumLit(a), product), 5);
    assert AdditiveAt(t, 0) == Ok(Binary(add, NumLit(a), product), 5);
    assert ComparisonAt(t, 0) == Ok(Binary(add, NumLit(a), product), 5);
  }

  lemma ProductOnTheLeft(a: nat, b: nat, c: nat, add: string, mul: string)
    requires add in {"+", "-"} && mul in {"*", "/"}
    ensures ExpressionAt(ChainTokens(a, [Term(mul, b), Term(add, c)]), 0)
            == Ok(Binary(add, Binary(mul, NumLit(a), NumLit(b)), NumLit(c)), 5)
  {
    var t := ChainTokens(a, [Term(mul, b), Term(add, c)]);
    TwoTerms(a, Term(mul, b), Term(add, c));
    NumberPrimary(t, 0, a);
    NumberPrimary(t, 2, b);
    NumberPrimary(t, 4, c);
    var left := Binary(mul, NumLit(a), NumLit(b));
    assert MultiplicativeRest(t, left, 3) == Ok(left, 3);
    assert MultiplicativeAt(t, 0) == Ok(left, 3);
    assert MultiplicativeAt(t, 4) == Ok(NumLit(c), 5);
    assert AdditiveRest(t, Binary(add, left, NumLit(c)), 5) == Ok(Binary(add, left, NumLit(c)), 5);
    assert AdditiveRest(t, left, 3) == Ok(Binary(add, left, NumLit(c)), 5);
    assert AdditiveAt(t, 0) == Ok(Binary(add, left, NumLit(c)), 5);
    assert ComparisonAt(t, 0) == Ok(Binary(add, left, NumLit(c)), 5);
  }

  /** `a + b < c` groups as `(a + b) < c`, and `a < b + c` as `a < (b + c)`:
      every comparator binds more loosely than `+` and `-`. */
  lemma SumBindsTighterThanComparison(a: nat, b: nat, c: nat, add: string, cmp: string)
    requires add in {"+", "-"}
    ensures ExpressionAt([NumberToken(a), Token("operator", add), NumberToken(b), Token("comparator", cmp), NumberToken(c)], 0)
            == Ok(Binary(cmp, Binary(add, NumLit(a), NumLit(b)), NumLit(c)), 5)
    ensures ExpressionAt([NumberToken(a), Token("comparator", cmp), NumberToken(b), Token("operator", add), NumberToken(c)], 0)
            == Ok(Binary(cmp, NumLit(a), Binary(add, NumLit(b), NumLit(c))), 5)
  {
    SumOnTheLeft(a, b, c, add, cmp);
    SumOnTheRight(a, b, c, add, cmp);
  }

  lemma SumOnTheLeft(a: nat, b: nat, c: nat, add: string, cmp: string)
    requires add in {"+", "-"}
    ensures ExpressionAt([NumberToken(a), Token("operator", add), NumberToken(b), Token("comparator", cmp), NumberToken(c)], 0)
            == Ok(Binary(cmp, Binary(add, NumLit(a), NumLit(b)), NumLit(c)), 5)
  {
    var t := [NumberToken(a), Token("operator", add), NumberToken(b), Token("comparator", cmp), NumberToken(c)];
    NumberPrimary(t, 0, a);
    NumberPrimary(t, 2, b);
    NumberPrimary(t, 4, c);
    var sum := Binary(add, NumLit(a), NumLit(b));
    assert MultiplicativeAt(t, 0) == Ok(NumLit(a), 1);
    assert MultiplicativeAt(t, 2) == Ok(NumLit(b), 3);
    assert AdditiveRest(t, sum, 3) == Ok(sum, 3);
    assert AdditiveAt(t, 0) == Ok(sum, 3);
    assert MultiplicativeAt(t, 4) == Ok(NumLit(c), 5);
    assert AdditiveAt(t, 4) == Ok(NumLit(c), 5);
    assert ComparisonRest(t, Binary(cmp, sum, NumLit(c)), 5) == Ok(Binary(cmp, sum, NumLit(c)), 5);
    assert ComparisonAt(t, 0) == Ok(Binary(cmp, sum, NumLit(c)), 5);
  }

  lemma SumOnTheRight(a: nat, b: nat, c: nat, add: string, cmp: string)
    requires add in {"+", "-"}
    ensures ExpressionAt([NumberToken(a), Token("comparator", cmp), NumberToken(b), Token("operator", add), NumberToken(c)], 0)
            == Ok(Binary(cmp, NumLit(a), Binary(add, NumLit(b), NumLit(c))), 5)
  {
    var t := [NumberToken(a), Token("comparator", cmp), NumberToken(b), Token("operator", add), NumberToken(c)];
    NumberPrimary(t, 0, a);
    NumberPrimary(t, 2, b);
    NumberPrimary(t, 4, c);
    var right := Binary(add, NumLit(b), NumLit(c));
    assert MultiplicativeAt(t, 0) == Ok(NumLit(a), 1);
    assert AdditiveAt(t, 0) == Ok(NumLit(a), 1);
    assert MultiplicativeAt(t, 2) == Ok(NumLit(b), 3);
    assert MultiplicativeAt(t, 4) == Ok(NumLit(c), 5);
    assert AdditiveRest(t, right, 5) == Ok(right, 5);
    assert AdditiveAt(t, 2) == Ok(right, 5);
    assert ComparisonRest(t, Binary(cmp, NumLit(a), right), 5) == Ok(Binary(cmp, NumLit(a), right), 5);
    assert ComparisonAt(t, 0) == Ok(Binary(cmp, NumLit(a), right), 5);
  }

  /** `x.prop` is a property read and `x.prop(n)` a call through a property
      callee; the postfix loop stops at a closing `)`. */
  lemma PropertyForms(x: string, prop: string, n: nat)
    ensures ProgramOf(PropertyTokens(x, prop)) == Ok([Property(Ident(x), prop)], 3)
    ensures ProgramOf(PropertyTokens(x, prop) + CallTokens(n))
            == Ok([Call(Via(Property(Ident(x), prop)), [NumLit(n)])], 6)
  {
    var e1 := Property(Ident(x), prop);
    PropertyRead(x, prop);
    assert [] + [e1] == [e1];
    assert StatementsFrom(PropertyTokens(x, prop), 3, [] + [e1]) == Ok([e1], 3);
    var e2 := Call(Via(Property(Ident(x), prop)), [NumLit(n)]);
    PropertyCall(x, prop, n);
    assert [] + [e2] == [e2];
    assert StatementsFrom(PropertyTokens(x, prop) + CallTokens(n), 6, [] + [e2]) == Ok([e2], 6);
  }

  /** `x.prop` */
  function PropertyTokens(x: string, prop: string): seq<Token>
  {
    [Token("identifier", x), Token("dot", "."), Token("identifier", prop)]
  }

  /** `(n)` */
  function CallTokens(n: nat): seq<Token>
  {
    [Token("parenthesis", "("), NumberToken(n), Token("parenthesis", ")")]
  }

  lemma PropertyRead(x: string, prop: string)
    ensures ExpressionAt(PropertyTokens(x, prop), 0) == Ok(Property(Ident(x), prop), 3)
  {
    var t := PropertyTokens(x, prop);
    var e := Property(Ident(x), prop);
    assert PostfixFrom(t, e, 3) == Ok(e, 3);
    assert PostfixFrom(t, Ident(x), 1) == Ok(e, 3);
    assert PrimaryAt(t, 0) == Ok(e, 3);
    WholeExpression(t, 0, e);
  }

  lemma PropertyCall(x: string, prop: string, n: nat)
    ensures ExpressionAt(PropertyTokens(x, prop) + CallTokens(n), 0)
            == Ok(Call(Via(Property(Ident(x), prop)), [NumLit(n)]), 6)
  {
    var t := PropertyTokens(x, prop) + CallTokens(n);
    NumberExpression(t, 4, n);
    assert [] + [NumLit(n)] == [NumLit(n)];
    assert ArgListFrom(t, 4, [], ")") == Ok([NumLit(n)], 5);
    assert CallArgsAt(t, 3) == Ok([NumLit(n)], 6);
    var e := Call(Via(Property(Ident(x), prop)), [NumLit(n)]);
    assert PostfixFrom(t, e, 6) == Ok(e, 6);
    assert PostfixFrom(t, Ident(x), 1) == Ok(e, 6);
    assert PrimaryAt(t, 0) == Ok(e, 6);
    WholeExpression(t, 0, e);
  }

  lemma TwoTerms(a: nat, x: Term, y: Term)
    ensures ChainTokens(a, [x, y])
            == [NumberToken(a), Token("operator", x.op), NumberToken(x.operand), Token("operator", y.op), NumberToken(y.operand)]
  {
    assert [x, y][1..] == [y];
    assert [y][1..] == [];
    assert TermTokens([y]) == [Token("operator", y.op), NumberToken(y.operand)];
    assert TermTokens([x, y]) == [Token("operator", x.op), NumberToken(x.operand)] + TermTokens([y]);
  }

  /** `x1, x2, ..., xn` as identifier and comma tokens. */
  function ParamTokens(names: seq<string>): (r: seq<Token>)
    ensures names == [] <==> r == []
    decreases |names|
  {
    if names == [] then []
    else if |names| == 1 then [Token("identifier", names[0])]
    else [Token("identifier", names[0]), Token("comma", ",")] + ParamTokens(names[1..])
  }

  /** The parameter loop reads back exactly the names it is given, in order. */
  lemma {:induction false} ParamListRoundTrip(toks: seq<Token>, p: nat, q: nat, acc: seq<string>, names: seq<string>)
    requires p <= q < |toks| && toks[p..q] == ParamTokens(names) && toks[q].value == ")"
    requires forall i :: 0 <= i < |names| ==> names[i] != ")"
    ensures ParamListFrom(toks, p, acc) == Ok(acc + names, q)
    decreases |names|
  {
    if names == [] {
      assert p == q;
      assert acc + names == acc;
    } else if |names| == 1 {
      assert toks[p] == toks[p..q][0] == Token("identifier", names[0]);
      assert q == p + 1;
      assert acc + names == acc + [names[0]];
    } else {
      var rest := ParamTokens(names[1..]);
      assert toks[p..q] == [Token("identifier", names[0]), Token("comma", ",")] + rest;
      assert toks[p] == toks[p..q][0] && toks[p + 1] == toks[p..q][1];
      assert toks[p + 2..q] == toks[p..q][2..] == rest;
      assert forall i :: 0 <= i < |names[1..]| ==> names[1..][i] == names[i + 1];
      ParamListRoundTrip(toks, p + 2, q, acc + [names[0]], names[1..]);
      assert acc + [names[0]] + names[1..] == acc + names;
    }
  }

  /** `name = (x1, ..., xn) {}` defines a function whose parameters are
      `x1, ..., xn` in order. */
  lemma DefinitionParams(name: string, names: seq<string>)
    requires forall i :: 0 <= i < |names| ==> names[i] != ")"
    ensures var toks := [Token("identifier", name), Token("operator", "="), Token("parenthesis", "(")]
                        + ParamTokens(names)
                        + [Token("parenthesis", ")"), Token("bracket", "{"), Token("bracket", "}")];
            ProgramOf(toks) == Ok([Assignment(name, FunctionLit(names, Block([], None)))], |toks|)
  {
    var pt := ParamTokens(names);
    var toks := [Token("identifier", name), Token("operator", "="), Token("parenthesis", "(")]
                + pt + [Token("parenthesis", ")"), Token("bracket", "{"), Token("bracket", "}")];
    var q := 3 + |pt|;
    assert toks[3..q] == pt;
    assert toks[q] == Token("parenthesis", ")") && toks[q + 1] == Token("bracket", "{") && toks[q + 2] == Token("bracket", "}");
    ParamListRoundTrip(toks, 3, q, [], names);
    assert [] + names == names;
    assert BlockItemsFrom(toks, q + 2, []) == Ok([], q + 2);
    assert BlockAt(toks, q + 1) == Ok(Block([], None), q + 3);
    var def := Assignment(name, FunctionLit(names, Block([], None)));
    assert FunctionDefinitionAt(toks, 2, name) == Ok(def, |toks|);
    assert ExpressionAt(toks, 0) == Ok(def, |toks|);
    assert [] + [def] == [def];
    assert StatementsFrom(toks, |toks|, [] + [def]) == Ok([def], |toks|);
  }

  /** `n1, n2, ..., nk` as number and comma tokens. */
  function ListTokens(ns: seq<nat>): (r: seq<Token>)
    ensures ns == [] <==> r == []
    decreases |ns|
  {
    if ns == [] then []
    else if |ns| == 1 then [NumberToken(ns[0])]
    else [NumberToken(ns[0]), Token("comma", ",")] + ListTokens(ns[1..])
  }

  function NumLits(ns: seq<nat>): (r: seq<Node>)
    ensures |r| == |ns| && forall i :: 0 <= i < |ns| ==> r[i] == NumLit(ns[i])
  {
    seq(|ns|, i requires 0 <= i < |ns| => NumLit(ns[i]))
  }

  /** `ns` written from `p` to `q` as number tokens separated by commas. */
  predicate NumbersAt(toks: seq<Token>, p: nat, q: nat, ns: seq<nat>)
    decreases |ns|
  {
    && p <= q <= |toks|
    && if ns == [] then p == q
       else
         && p < q && toks[p] == NumberToken(ns[0])
         && if |ns| == 1 then q == p + 1
            else p + 1 < q && toks[p + 1] == Token("comma", ",") && NumbersAt(toks, p + 2, q, ns[1..])
  }

  lemma {:induction false} ListTokensAt(toks: seq<Token>, p: nat, q: nat, ns: seq<nat>)
    requires p <= q <= |toks| && toks[p..q] == ListTokens(ns)
    ensures NumbersAt(toks, p, q, ns)
    decreases |ns|
  {
    if ns != [] {
      assert toks[p] == toks[p..q][0];
      if |ns| > 1 {
        assert toks[p..q] == [NumberToken(ns[0]), Token("comma", ",")] + ListTokens(ns[1..]);
        assert toks[p + 1] == toks[p..q][1];
        assert toks[p + 2..q] == toks[p..q][2..];
        ListTokensAt(toks, p + 2, q, ns[1..]);
      }
    }
  }

  /** A number followed by `]` is the last element. */
  lemma LastElement(toks: seq<Token>, p: nat, acc: seq<Node>, n: nat)
    requires p + 1 < |toks| && toks[p] == NumberToken(n) && toks[p + 1] == Token("squarebracket", "]")
    ensures ArgListFrom(toks, p, acc, "]") == Ok(acc + [NumLit(n)], p + 1)
  {
    NumberExpression(toks, p, n);
    assert Numeral(n)[0] != ']';
  }

  /** A number followed by a comma is one element, and the loop goes on after the comma. */
  lemma ElementStep(toks: seq<Token>, p: nat, acc: seq<Node>, n: nat)
    requires p + 1 < |toks| && toks[p] == NumberToken(n) && toks[p + 1] == Token("comma", ",")
    ensures ArgListFrom(toks, p, acc, "]") == ArgListFrom(toks, p + 2, acc + [NumLit(n)], "]")
  {
    NumberExpression(toks, p, n);
    assert Numeral(n)[0] != ']';
  }

  /** The element loop over numbers in a row reads them back in order. */
  lemma {:induction false} NumbersChain(toks: seq<Token>, p: nat, q: nat, acc: seq<Node>, ns: seq<nat>)
    requires NumbersAt(toks, p, q, ns) && q < |toks| && toks[q] == Token("squarebracket", "]")
    ensures ArgListFrom(toks, p, acc, "]") == Ok(acc + NumLits(ns), q)
    decreases |ns|
  {
    if ns == [] {
      assert acc + NumLits(ns) == acc;
    } else if |ns| == 1 {
      LastElement(toks, p, acc, ns[0]);
      assert NumLits(ns) == [NumLit(ns[0])];
    } else {
      ElementStep(toks, p, acc, ns[0]);
      NumbersChain(toks, p + 2, q, acc + [NumLit(ns[0])], ns[1..]);
      NumLitsCons(acc, ns);
    }
  }

  lemma NumLitsCons(acc: seq<Node>, ns: seq<nat>)
    requires ns != []
    ensures acc + [NumLit(ns[0])] + NumLits(ns[1..]) == acc + NumLits(ns)
  {
    assert [NumLit(ns[0])] + NumLits(ns[1..]) == NumLits(ns);
  }

  /** The element loop of an array literal reads back its numbers in order. */
  lemma NumberListRoundTrip(toks: seq<Token>, p: nat, q: nat, acc: seq<Node>, ns: seq<nat>)
    requires p <= q < |toks| && toks[p..q] == ListTokens(ns) && toks[q] == Token("squarebracket", "]")
    ensures ArgListFrom(toks, p, acc, "]") == Ok(acc + NumLits(ns), q)
  {
    ListTokensAt(toks, p, q, ns);
    NumbersChain(toks, p, q, acc, ns);
  }

  /** `[n1, ..., nk]` is one array literal holding the numbers in order. */
  lemma ArrayLiteralProgram(ns: seq<nat>)
    ensures var toks := [Token("squarebracket", "[")] + ListTokens(ns) + [Token("squarebracket", "]")];
            ProgramOf(toks) == Ok([ArrayLit(NumLits(ns))], |toks|)
  {
    var toks := [Token("squarebracket", "[")] + ListTokens(ns) + [Token("squarebracket", "]")];
    ArrayLiteralExpression(ns);
    var e := ArrayLit(NumLits(ns));
    assert [] + [e] == [e];
    assert StatementsFrom(toks, |toks|, [] + [e]) == Ok([e], |toks|);
  }

  /** `[n1, ..., nk]` is one array-literal expression. */
  lemma ArrayLiteralExpression(ns: seq<nat>)
    ensures var toks := [Token("squarebracket", "[")] + ListTokens(ns) + [Token("squarebracket", "]")];
            ExpressionAt(toks, 0) == Ok(ArrayLit(NumLits(ns)), |toks|)
  {
    var toks := [Token("squarebracket", "[")] + ListTokens(ns) + [Token("squarebracket", "]")];
    assert toks[1..|toks| - 1] == ListTokens(ns);
    BracketedNumbers(toks, ns);
  }

  lemma BracketedNumbers(toks: seq<Token>, ns: seq<nat>)
    requires 2 <= |toks| && toks[0] == Token("squarebracket", "[") && toks[|toks| - 1] == Token("squarebracket", "]")
    requires toks[1..|toks| - 1] == ListTokens(ns)
    ensures ExpressionAt(toks, 0) == Ok(ArrayLit(NumLits(ns)), |toks|)
  {
    var q := |toks| - 1;
    NumberListRoundTrip(toks, 1, q, [], ns);
    assert [] + NumLits(ns) == NumLits(ns);
    ArrayPrimary(toks, 0, q, NumLits(ns));
    WholeExpression(toks, 0, ArrayLit(NumLits(ns)));
  }

  /** `[` elements `]` ending the tokens is one array-literal primary. */
  lemma ArrayPrimary(toks: seq<Token>, p: nat, q: nat, elems: seq<Node>)
    requires p < q && q + 1 == |toks| && toks[p] == Token("squarebracket", "[") && toks[q] == Token("squarebracket", "]")
    requires ArgListFrom(toks, p + 1, [], "]") == Ok(elems, q)
    ensures PrimaryAt(toks, p) == Ok(ArrayLit(elems), q + 1)
  {
    assert PrimaryHeadAt(toks, p) == Ok(ArrayLit(elems), q + 1);
  }

  /** A primary that reaches the end of the tokens is the whole expression,
      unless the tokens start an assignment, `if` or `for`. */
  lemma WholeExpression(toks: seq<Token>, p: nat, e: Node)
    requires p < |toks| && toks[p].kind != "keyword"
    requires !(toks[p].kind == "identifier" && p + 1 < |toks| && toks[p + 1].value == "=")
    requires PrimaryAt(toks, p) == Ok(e, |toks|)
    ensures ExpressionAt(toks, p) == Ok(e, |toks|)
  {
    assert MultiplicativeAt(toks, p) == Ok(e, |toks|);
    assert AdditiveAt(toks, p) == Ok(e, |toks|);
    assert ComparisonAt(toks, p) == Ok(e, |toks|);
  }

  /** With `bracket` tokens, `xs[0]` is an index expression. */
  lemma IndexWithBracketTokens()
    ensures ProgramOf(BracketIndexTokens()) == Ok([Index(Ident("xs"), NumLit(0))], 4)
  {
    var t := BracketIndexTokens();
    var e := Index(Ident("xs"), NumLit(0));
    BracketIndexExpression();
    assert [] + [e] == [e];
    assert StatementsFrom(t, 4, [] + [e]) == Ok([e], 4);
  }

  function BracketIndexTokens(): seq<Token>
  {
    [Token("identifier", "xs"), Token("bracket", "["), NumberToken(0), Token("bracket", "]")]
  }

  lemma BracketIndexExpression()
    ensures ExpressionAt(BracketIndexTokens(), 0) == Ok(Index(Ident("xs"), NumLit(0)), 4)
  {
    var t := BracketIndexTokens();
    NumberExpression(t, 2, 0);
    var e := Index(Ident("xs"), NumLit(0));
    assert PostfixFrom(t, Ident("xs"), 1) == Ok(e, 4);
    assert PrimaryAt(t, 0) == Ok(e, 4);
    WholeExpression(t, 0, e);
  }

  /** Array literals need `squarebracket` tokens, which the index postfix does
      not accept: `xs[0]` with those tokens is two statements, the name and a
      one-element array. */
  lemma IndexWithSquareBracketTokens()
    ensures ProgramOf(SquareIndexTokens()) == Ok([Ident("xs"), ArrayLit([NumLit(0)])], 4)
  {
    var t := SquareIndexTokens();
    var e := ArrayLit([NumLit(0)]);
    SquareIndexName();
    SquareIndexArray();
    assert [] + [Ident("xs")] == [Ident("xs")];
    assert [Ident("xs")] + [e] == [Ident("xs"), e];
    assert StatementsFrom(t, 4, [Ident("xs"), e]) == Ok([Ident("xs"), e], 4);
    assert StatementsFrom(t, 1, [Ident("xs")]) == Ok([Ident("xs"), e], 4);
  }

  function SquareIndexTokens(): seq<Token>
  {
    [Token("identifier", "xs"), Token("squarebracket", "["), NumberToken(0), Token("squarebracket", "]")]
  }

  /** The name `xs` alone is the first statement, since `[` of kind
      `squarebracket` is not a postfix. */
  lemma SquareIndexName()
    ensures ExpressionAt(SquareIndexTokens(), 0) == Ok(Ident("xs"), 1)
  {
    var t := SquareIndexTokens();
    assert PrimaryAt(t, 0) == Ok(Ident("xs"), 1);
    assert MultiplicativeAt(t, 0) == Ok(Ident("xs"), 1);
    assert AdditiveAt(t, 0) == Ok(Ident("xs"), 1);
    assert ComparisonAt(t, 0) == Ok(Ident("xs"), 1);
  }

  /** `[0]` after it is a one-element array literal. */
  lemma SquareIndexArray()
    ensures ExpressionAt(SquareIndexTokens(), 1) == Ok(ArrayLit([NumLit(0)]), 4)
  {
    var t := SquareIndexTokens();
    assert t[2..3] == ListTokens([0]);
    NumberListRoundTrip(t, 2, 3, [], [0]);
    assert [] + NumLits([0]) == [NumLit(0)];
    ArrayPrimary(t, 1, 3, [NumLit(0)]);
    WholeExpression(t, 1, ArrayLit([NumLit(0)]));
  }

  /** `for (x) in xs {}` keeps the bare name `xs`; `for (x) in (xs) {}` keeps
      an identifier node. */
  lemma ForIterableForms(item: string, name: string)
    ensures ForAt(ForTokens(item, [Token("identifier", name)]), 0)
            == Ok(For(item, None, RawName(name), Block([], None)), 8)
    ensures ForAt(ForTokens(item, [Token("parenthesis", "("), Token("identifier", name), Token("parenthesis", ")")]), 0)
            == Ok(For(item, None, Expr(Ident(name)), Block([], None)), 10)
  {
    var t1 := ForTokens(item, [Token("identifier", name)]);
    EmptyBlockAt(t1, 6);
    var t2 := ForTokens(item, [Token("parenthesis", "("), Token("identifier", name), Token("parenthesis", ")")]);
    ParenthesizedName(t2, name);
    EmptyBlockAt(t2, 8);
  }

  /** `{}` is an empty block. */
  lemma EmptyBlockAt(toks: seq<Token>, p: nat)
    requires p + 2 <= |toks| && toks[p] == Token("bracket", "{") && toks[p + 1] == Token("bracket", "}")
    ensures BlockAt(toks, p) == Ok(Block([], None), p + 2)
  {
    assert BlockItemsFrom(toks, p + 1, []) == Ok([], p + 1);
  }

  /** `(name)` as an iterable is the identifier node. */
  lemma ParenthesizedName(t: seq<Token>, name: string)
    requires 9 <= |t| && t[5] == Token("parenthesis", "(") && t[6] == Token("identifier", name)
    requires t[7] == Token("parenthesis", ")") && t[8] == Token("bracket", "{")
    ensures IterableAt(t, 5) == Ok(Expr(Ident(name)), 8)
  {
    assert PrimaryAt(t, 6) == Ok(Ident(name), 7);
    assert MultiplicativeAt(t, 6) == Ok(Ident(name), 7);
    assert AdditiveAt(t, 6) == Ok(Ident(name), 7);
    assert ComparisonAt(t, 6) == Ok(Ident(name), 7);
    assert ExpressionAt(t, 6) == Ok(Ident(name), 7);
    assert PrimaryHeadAt(t, 5) == Ok(Ident(name), 8);
    assert PrimaryAt(t, 5) == Ok(Ident(name), 8);
    assert MultiplicativeAt(t, 5) == Ok(Ident(name), 8);
    assert AdditiveAt(t, 5) == Ok(Ident(name), 8);
    assert ComparisonAt(t, 5) == Ok(Ident(name), 8);
    assert ExpressionAt(t, 5) == Ok(Ident(name), 8);
  }

  /** `for (item) in <iterable> {}`. */
  function ForTokens(item: string, iterable: seq<Token>): seq<Token>
  {
    [Token("keyword", "for"), Token("parenthesis", "("), Token("identifier", item), Token("parenthesis", ")"),
     Token("keyword", "in")] + iterable + [Token("bracket", "{"), Token("bracket", "}")]
  }
}
