/**
 The grammar is unambiguous: a recursive descent that builds trees instead of values recovers
 every grammatical tree from its tokens, so no two trees share them, and the tree behind an
 accepted expression is the only one.
 */
module CalculatorTrees {
  import opened CalculatorSpec
  import opened CalculatorGrammar

  datatype Parsed<V> = Parsed(t: Expr<V>, rest: seq<Lexeme<V>>) | Rejected

  function TreePrimary<V>(s: seq<Lexeme<V>>): (p: Parsed<V>)
    ensures p.Parsed? ==> |p.rest| < |s|
    decreases |s|, 0
  {
    if s == [] || s[0].BadChar? then Rejected
    else if s[0].t.Number? then Parsed(Num(s[0].t.value), s[1..])
    else if s[0].t.Name? then Parsed(Var(s[0].t.name), s[1..])
    else if s[0].t.s == Minus || s[0].t.s == Plus then
      var p := TreePrimary(s[1..]);
      if p.Parsed? then Parsed(if s[0].t.s == Minus then Neg(p.t) else Pos(p.t), p.rest) else p
    else if s[0].t.s == OpenParen then
      var p := TreeExpression(s[1..]);
      if p.Parsed? && p.rest != [] && p.rest[0].Tok? && Is(p.rest[0].t, CloseParen) then Parsed(Paren(p.t), p.rest[1..])
      else Rejected
    else Rejected
  }

  function TreeTerm<V>(s: seq<Lexeme<V>>): (p: Parsed<V>)
    ensures p.Parsed? ==> |p.rest| < |s|
    decreases |s|, 1
  {
    var p := TreePrimary(s);
    if p.Parsed? then TreeTermLoop(p.t, p.rest) else p
  }

  function TreeTermLoop<V>(l: Expr<V>, s: seq<Lexeme<V>>): (p: Parsed<V>)
    ensures p.Parsed? ==> |p.rest| <= |s|
    decreases |s|, 0
  {
    if s == [] || s[0].BadChar? || !MulOp(s[0].t) then Parsed(l, s)
    else
      var op := s[0].t.s;
      var p := if op == Modulus then TreeTerm(s[1..]) else TreePrimary(s[1..]);
      if p.Parsed? then TreeTermLoop(Bin(op, l, p.t), p.rest) else p
  }

  function TreeExpression<V>(s: seq<Lexeme<V>>): (p: Parsed<V>)
    ensures p.Parsed? ==> |p.rest| < |s|
    decreases |s|, 3
  {
    var p := TreeTerm(s);
    if p.Parsed? then TreeSumLoop(p.t, p.rest) else p
  }

  function TreeSumLoop<V>(l: Expr<V>, s: seq<Lexeme<V>>): (p: Parsed<V>)
    ensures p.Parsed? ==> |p.rest| <= |s|
    decreases |s|, 2
  {
    if s == [] || s[0].BadChar? || !AddOp(s[0].t) then Parsed(l, s)
    else
      var p := TreeTerm(s[1..]);
      if p.Parsed? then TreeSumLoop(Bin(s[0].t.s, l, p.t), p.rest) else p
  }

  // ----- one step of each function -----

  lemma TermLoopTreeStep<V>(l: Expr<V>, op: Symbol, s: seq<Lexeme<V>>)
    requires MulOp<V>(Sym(op))
    ensures var p := if op == Modulus then TreeTerm(s) else TreePrimary(s);
            TreeTermLoop(l, [Tok(Sym(op))] + s) == if p.Parsed? then TreeTermLoop(Bin(op, l, p.t), p.rest) else p
  {
    assert ([Tok(Sym(op))] + s)[1..] == s;
  }

  lemma SumLoopTreeStep<V>(l: Expr<V>, op: Symbol, s: seq<Lexeme<V>>)
    requires AddOp<V>(Sym(op))
    ensures var p := TreeTerm(s);
            TreeSumLoop(l, [Tok(Sym(op))] + s) == if p.Parsed? then TreeSumLoop(Bin(op, l, p.t), p.rest) else p
  {
    assert ([Tok(Sym(op))] + s)[1..] == s;
  }

  lemma PrimaryTreeStep<V>(x: Token<V>, s: seq<Lexeme<V>>)
    ensures x.Number? ==> TreePrimary([Tok(x)] + s) == Parsed(Num(x.value), s)
    ensures x.Name? ==> TreePrimary([Tok(x)] + s) == Parsed(Var(x.name), s)
    ensures var p := TreePrimary(s);
            && (Is(x, Minus) && p.Parsed? ==> TreePrimary([Tok(x)] + s) == Parsed(Neg(p.t), p.rest))
            && (Is(x, Plus) && p.Parsed? ==> TreePrimary([Tok(x)] + s) == Parsed(Pos(p.t), p.rest))
    ensures var p := TreeExpression(s);
            Is(x, OpenParen) && p.Parsed? && p.rest != [] && p.rest[0] == Tok(Sym(CloseParen)) ==>
              TreePrimary([Tok(x)] + s) == Parsed(Paren(p.t), p.rest[1..])
  {
    assert ([Tok(x)] + s)[1..] == s;
  }

  // ----- the tree comes back from its tokens -----

  lemma {:induction false} PrimaryTree<V>(t: Expr<V>, tail: seq<Lexeme<V>>)
    requires IsPrimary(t)
    ensures TreePrimary(Tokens(t) + tail) == Parsed(t, tail)
    decreases t, 0
  {
    SplitTokens(t, tail);
    match t
    case Num(v) => PrimaryTreeStep(Number(v), tail);
    case Var(n) => PrimaryTreeStep(Name(n), tail);
    case Neg(e) =>
      PrimaryTreeStep(Sym(Minus), Tokens(e) + tail);
      PrimaryTree(e, tail);
    case Pos(e) =>
      PrimaryTreeStep(Sym(Plus), Tokens(e) + tail);
      PrimaryTree(e, tail);
    case Paren(e) =>
      var after := [Tok(Sym(CloseParen))] + tail;
      PrimaryTreeStep(Sym(OpenParen), Tokens(e) + after);
      ExpressionTree(e, after);
      assert after[1..] == tail;
  }

  lemma {:induction false} ChainTree<V>(t: Expr<V>, tail: seq<Lexeme<V>>)
    requires IsChain(t)
    ensures TreeTerm(Tokens(t) + tail) == TreeTermLoop(t, tail)
    decreases t, 1
  {
    if t.Bin? {
      SplitTokens(t, tail);
      var mid := Tokens(t.r) + tail;
      ChainTree(t.l, [Tok(Sym(t.op))] + mid);
      PrimaryTree(t.r, tail);
      TermLoopTreeStep(t.l, t.op, mid);
    } else {
      PrimaryTree(t, tail);
    }
  }

  lemma {:induction false} TermTree<V>(t: Expr<V>, tail: seq<Lexeme<V>>)
    requires IsTerm(t) && EndsTerm(tail)
    ensures TreeTerm(Tokens(t) + tail) == Parsed(t, tail)
    decreases t, 2
  {
    if t.Bin? && t.op == Modulus {
      SplitTokens(t, tail);
      var mid := Tokens(t.r) + tail;
      ChainTree(t.l, [Tok(Sym(Modulus))] + mid);
      TermTree(t.r, tail);
      TermLoopTreeStep(t.l, Modulus, mid);
    } else {
      ChainTree(t, tail);
    }
  }

  lemma {:induction false} SumTree<V>(t: Expr<V>, tail: seq<Lexeme<V>>)
    requires IsExpression(t) && EndsTerm(tail)
    ensures TreeExpression(Tokens(t) + tail) == TreeSumLoop(t, tail)
    decreases t, 3
  {
    if t.Bin? && (t.op == Plus || t.op == Minus) {
      SplitTokens(t, tail);
      var mid := Tokens(t.r) + tail;
      SumTree(t.l, [Tok(Sym(t.op))] + mid);
      TermTree(t.r, tail);
      SumLoopTreeStep(t.l, t.op, mid);
    } else {
      TermTree(t, tail);
    }
  }

  lemma {:induction false} ExpressionTree<V>(t: Expr<V>, tail: seq<Lexeme<V>>)
    requires IsExpression(t) && EndsExpression(tail)
    ensures TreeExpression(Tokens(t) + tail) == Parsed(t, tail)
    decreases t, 4
  {
    SumTree(t, tail);
  }

  /** Two grammatical trees whose tokens start the same stream, each up to a terminator, are the same tree. */
  lemma GrammarIsUnambiguous<V>(t: Expr<V>, u: Expr<V>, a: seq<Lexeme<V>>, b: seq<Lexeme<V>>)
    requires IsExpression(t) && IsExpression(u) && EndsExpression(a) && EndsExpression(b)
    requires Tokens(t) + a == Tokens(u) + b
    ensures t == u && a == b
  {
    ExpressionTree(t, a);
    ExpressionTree(u, b);
  }

  /** An accepted expression is explained by exactly one tree of the grammar. */
  lemma AcceptedTreeIsUnique<V>(ar: Arith<V>, s: seq<Lexeme<V>>, vars: Vars<V>) returns (t: Expr<V>)
    requires Expression(ar, s, vars).res.Ok?
    ensures forall u: Expr<V> :: IsExpression(u) && Explains(ar, u, s, Expression(ar, s, vars), vars) <==> u == t
  {
    t := ExpressionExplained(ar, s, vars);
    var o := Expression(ar, s, vars);
    forall u: Expr<V> | IsExpression(u) && Explains(ar, u, s, o, vars) ensures u == t {
      GrammarIsUnambiguous(t, u, o.rest, o.rest);
    }
  }
}
