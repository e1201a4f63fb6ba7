/**
 What the calculator computes, stated on syntax trees: the parser accepts exactly the token
 renderings of the grammar's trees and returns the tree's value.
 */
module CalculatorGrammar {
  import opened CalculatorSpec

  datatype Expr<V> =
    | Num(v: V)
    | Var(name: string)
    | Neg(e: Expr<V>)
    | Pos(e: Expr<V>)
    | Paren(e: Expr<V>)
    | Bin(op: Symbol, l: Expr<V>, r: Expr<V>)

  /** Operands left to right, then the operation; the first error wins. */
  function Eval<V>(ar: Arith<V>, t: Expr<V>, vars: Vars<V>): Result<V> {
    match t
    case Num(v) => Ok(v)
    case Var(n) => if n in vars then Ok(vars[n]) else Err(Undefined(n))
    case Neg(e) =>
      var r := Eval(ar, e, vars);
      if r.Ok? then Ok(ar.neg(r.value)) else r
    case Pos(e) => Eval(ar, e, vars)
    case Paren(e) => Eval(ar, e, vars)
    case Bin(op, l, r) =>
      var (a, b) := (Eval(ar, l, vars), Eval(ar, r, vars));
      if a.Err? then a else if b.Err? then b else Combine(ar, op, a.value, b.value)
  }

  function Combine<V>(ar: Arith<V>, op: Symbol, a: V, b: V): Result<V> {
    if op == Plus then Ok(ar.add(a, b))
    else if op == Minus then Ok(ar.sub(a, b))
    else if op == Multiply then Ok(ar.mul(a, b))
    else if op == Div then
      if ar.isZero(b) then Err(DivideByZero) else Ok(ar.div(a, b))
    else if op == Modulus then
      if ar.toInt(b) == 0 then Err(ModuloByZero) else Ok(ar.ofInt(Remainder(ar.toInt(a), ar.toInt(b))))
    else Ok(a)
  }

  lemma EvalBin<V>(ar: Arith<V>, t: Expr<V>, a: V, b: V, vars: Vars<V>)
    requires t.Bin? && Eval(ar, t.l, vars) == Ok(a) && Eval(ar, t.r, vars) == Ok(b)
    ensures Eval(ar, t, vars) == Operate(ar, t.op, a, b)
  {
  }

  function Tokens<V>(t: Expr<V>): (s: seq<Lexeme<V>>)
    ensures s != []
  {
    match t
    case Num(v) => [Tok(Number(v))]
    case Var(n) => [Tok(Name(n))]
    case Neg(e) => [Tok(Sym(Minus))] + Tokens(e)
    case Pos(e) => [Tok(Sym(Plus))] + Tokens(e)
    case Paren(e) => [Tok(Sym(OpenParen))] + (Tokens(e) + [Tok(Sym(CloseParen))])
    case Bin(op, l, r) => Tokens(l) + ([Tok(Sym(op))] + Tokens(r))
  }

  // ----- the grammar of the code: the right operand of `%` is a whole term -----

  predicate IsPrimary<V>(t: Expr<V>)
    decreases t, 0
  {
    match t
    case Num(_) => true
    case Var(_) => true
    case Neg(e) => IsPrimary(e)
    case Pos(e) => IsPrimary(e)
    case Paren(e) => IsExpression(e)
    case Bin(_, _, _) => false
  }

  predicate IsChain<V>(t: Expr<V>)
    decreases t, 1
  {
    if t.Bin? then (t.op == Multiply || t.op == Div) && IsChain(t.l) && IsPrimary(t.r) else IsPrimary(t)
  }

  predicate IsTerm<V>(t: Expr<V>)
    decreases t, 2
  {
    if t.Bin? && t.op == Modulus then IsChain(t.l) && IsTerm(t.r) else IsChain(t)
  }

  predicate IsExpression<V>(t: Expr<V>)
    decreases t, 3
  {
    if t.Bin? && (t.op == Plus || t.op == Minus) then IsExpression(t.l) && IsTerm(t.r) else IsTerm(t)
  }

  // ----- every tree of the grammar is parsed and valued -----

  /** The tree's error, raised no later than the tree's last token. */
  ghost predicate Fails<V>(o: Out<V, V>, r: Result<V>, tail: seq<Lexeme<V>>) {
    r.Err? && o.res == r && |o.rest| >= |tail|
  }

  /** The tree's value with `tail` left, or its error. */
  ghost predicate Yields<V>(o: Out<V, V>, r: Result<V>, tail: seq<Lexeme<V>>) {
    if r.Ok? then o == Out(r, tail) else Fails(o, r, tail)
  }

  lemma SplitTokens<V>(t: Expr<V>, tail: seq<Lexeme<V>>)
    ensures match t
            case Neg(e) => Tokens(t) + tail == [Tok(Sym(Minus))] + (Tokens(e) + tail)
            case Pos(e) => Tokens(t) + tail == [Tok(Sym(Plus))] + (Tokens(e) + tail)
            case Paren(e) => Tokens(t) + tail == [Tok(Sym(OpenParen))] + (Tokens(e) + ([Tok(Sym(CloseParen))] + tail))
            case Bin(op, l, r) => Tokens(t) + tail == Tokens(l) + ([Tok(Sym(op))] + (Tokens(r) + tail))
            case _ => true
  {
    if t.Paren? {
      assert (Tokens(t.e) + [Tok(Sym(CloseParen))]) + tail == Tokens(t.e) + ([Tok(Sym(CloseParen))] + tail);
    }
  }

  lemma {:induction false} PrimaryYields<V>(ar: Arith<V>, t: Expr<V>, tail: seq<Lexeme<V>>, vars: Vars<V>)
    requires IsPrimary(t)
    ensures Yields(Primary(ar, Tokens(t) + tail, vars), Eval(ar, t, vars), tail)
    decreases t, 0
  {
    SplitTokens(t, tail);
    match t
    case Num(v) => PrimaryStep(ar, Number(v), tail, vars);
    case Var(n) => PrimaryStep(ar, Name(n), tail, vars);
    case Neg(e) =>
      PrimaryStep(ar, Sym(Minus), Tokens(e) + tail, vars);
      PrimaryYields(ar, e, tail, vars);
    case Pos(e) =>
      PrimaryStep(ar, Sym(Plus), Tokens(e) + tail, vars);
      PrimaryYields(ar, e, tail, vars);
    case Paren(e) =>
      var after := [Tok(Sym(CloseParen))] + tail;
      PrimaryStep(ar, Sym(OpenParen), Tokens(e) + after, vars);
      ExpressionYields(ar, e, after, vars);
      assert after[1..] == tail;
  }

  /** A chain hands its value to the rest of the loop, so multiplications group to the left. */
  lemma {:induction false} ChainYields<V>(ar: Arith<V>, t: Expr<V>, tail: seq<Lexeme<V>>, vars: Vars<V>)
    requires IsChain(t)
    ensures var o, r := Term(ar, Tokens(t) + tail, vars), Eval(ar, t, vars);
            if r.Ok? then o == TermLoop(ar, r.value, tail, vars) else Fails(o, r, tail)
    decreases t, 1
  {
    if t.Bin? {
      SplitTokens(t, tail);
      var mid := Tokens(t.r) + tail;
      ChainYields(ar, t.l, [Tok(Sym(t.op))] + mid, vars);
      PrimaryYields(ar, t.r, tail, vars);
      var a := Eval(ar, t.l, vars);
      if a.Ok? {
        TermLoopStep(ar, a.value, t.op, mid, vars);
      }
    } else {
      PrimaryYields(ar, t, tail, vars);
    }
  }

  lemma {:induction false} TermYields<V>(ar: Arith<V>, t: Expr<V>, tail: seq<Lexeme<V>>, vars: Vars<V>)
    requires IsTerm(t) && EndsTerm(tail)
    ensures Yields(Term(ar, Tokens(t) + tail, vars), Eval(ar, t, vars), tail)
    decreases t, 2
  {
    if t.Bin? && t.op == Modulus {
      SplitTokens(t, tail);
      var mid := Tokens(t.r) + tail;
      ChainYields(ar, t.l, [Tok(Sym(Modulus))] + mid, vars);
      TermYields(ar, t.r, tail, vars);
      var a := Eval(ar, t.l, vars);
      if a.Ok? {
        TermLoopStep(ar, a.value, Modulus, mid, vars);
      }
    } else {
      ChainYields(ar, t, tail, vars);
    }
  }

  /** A sum hands its value to the rest of the loop, so additions group to the left. */
  lemma {:induction false} SumYields<V>(ar: Arith<V>, t: Expr<V>, tail: seq<Lexeme<V>>, vars: Vars<V>)
    requires IsExpression(t) && EndsTerm(tail)
    ensures SumOutcome(ar, Expression(ar, Tokens(t) + tail, vars), Eval(ar, t, vars), tail, vars)
    decreases t, 3
  {
    if t.Bin? && (t.op == Plus || t.op == Minus) {
      SplitTokens(t, tail);
      var mid := Tokens(t.r) + tail;
      SumYields(ar, t.l, [Tok(Sym(t.op))] + mid, vars);
      TermYields(ar, t.r, tail, vars);
      SumExtend(ar, t, mid, tail, vars);
    } else {
      TermYields(ar, t, tail, vars);
      ExpressionStep(ar, Tokens(t) + tail, vars);
    }
  }

  ghost predicate SumOutcome<V>(ar: Arith<V>, o: Out<V, V>, r: Result<V>, tail: seq<Lexeme<V>>, vars: Vars<V>)
    requires EndsTerm(tail)
  {
    if r.Ok? then o == ExpressionLoop(ar, r.value, tail, vars) else Fails(o, r, tail)
  }

  lemma SumExtend<V>(ar: Arith<V>, t: Expr<V>, mid: seq<Lexeme<V>>, tail: seq<Lexeme<V>>, vars: Vars<V>)
    requires t.Bin? && (t.op == Plus || t.op == Minus) && mid == Tokens(t.r) + tail && EndsTerm(tail)
    requires Yields(Term(ar, mid, vars), Eval(ar, t.r, vars), tail)
    ensures forall o :: SumOutcome(ar, o, Eval(ar, t.l, vars), [Tok(Sym(t.op))] + mid, vars) ==>
              SumOutcome(ar, o, Eval(ar, t, vars), tail, vars)
  {
    var a := Eval(ar, t.l, vars);
    if a.Ok? {
      ExpressionLoopStep(ar, a.value, t.op, mid, vars);
    }
  }

  /**
   Every expression of the grammar, followed by a token that cannot continue it, evaluates to
   its tree's value and leaves exactly that token and what follows; an error of the tree is
   raised before that token is read.
   */
  lemma {:induction false} ExpressionYields<V>(ar: Arith<V>, t: Expr<V>, tail: seq<Lexeme<V>>, vars: Vars<V>)
    requires IsExpression(t) && EndsExpression(tail)
    ensures Yields(Expression(ar, Tokens(t) + tail, vars), Eval(ar, t, vars), tail)
    decreases t, 4
  {
    SumYields(ar, t, tail, vars);
  }

  // ----- what each operator computes, on the tokens -----

  lemma NumbersCompute<V>(ar: Arith<V>, a: V, op: Symbol, b: V, tail: seq<Lexeme<V>>, vars: Vars<V>)
    requires (MulOp<V>(Sym(op)) || AddOp<V>(Sym(op))) && EndsExpression(tail)
    ensures Yields(Expression(ar, [Tok(Number(a)), Tok(Sym(op)), Tok(Number(b))] + tail, vars),
                   Combine(ar, op, a, b), tail)
  {
    var t := Bin(op, Num(a), Num(b));
    Inclusions(t.l);
    Inclusions(t.r);
    assert MulOp<V>(Sym(op)) ==> IsTerm(t);
    Inclusions(t);
    assert Tokens(t) == [Tok(Number(a)), Tok(Sym(op)), Tok(Number(b))];
    assert Eval(ar, t.l, vars) == Ok(a) && Eval(ar, t.r, vars) == Ok(b);
    ExpressionYields(ar, t, tail, vars);
  }

  /** The truncated remainder: of the dividend's sign and smaller than the divisor. */
  ghost predicate TruncatedRemainder(a: int, b: int, r: int) {
    && (exists q :: a == q * b + r)
    && (a >= 0 ==> r >= 0) && (a <= 0 ==> r <= 0) && -(if b > 0 then b else -b) < r < (if b > 0 then b else -b)
  }

  lemma RemainderIsTruncated(a: int, b: int)
    requires b != 0
    ensures TruncatedRemainder(a, b, Remainder(a, b))
  {
    RemainderSpec(a, b);
  }

  /** Each operator between two numbers, with the errors of the two that divide. */
  lemma OperatorsCompute<V>(ar: Arith<V>, a: V, b: V, tail: seq<Lexeme<V>>, vars: Vars<V>)
    requires EndsExpression(tail)
    ensures Expression(ar, [Tok(Number(a)), Tok(Sym(Plus)), Tok(Number(b))] + tail, vars)
         == Out(Ok(ar.add(a, b)), tail)
    ensures Expression(ar, [Tok(Number(a)), Tok(Sym(Minus)), Tok(Number(b))] + tail, vars)
         == Out(Ok(ar.sub(a, b)), tail)
    ensures Expression(ar, [Tok(Number(a)), Tok(Sym(Multiply)), Tok(Number(b))] + tail, vars)
         == Out(Ok(ar.mul(a, b)), tail)
    ensures var o := Expression(ar, [Tok(Number(a)), Tok(Sym(Div)), Tok(Number(b))] + tail, vars);
            if ar.isZero(b) then o.res == Err(DivideByZero) else o == Out(Ok(ar.div(a, b)), tail)
    ensures var o := Expression(ar, [Tok(Number(a)), Tok(Sym(Modulus)), Tok(Number(b))] + tail, vars);
            if ar.toInt(b) == 0 then o.res == Err(ModuloByZero)
            else exists r :: TruncatedRemainder(ar.toInt(a), ar.toInt(b), r) && o == Out(Ok(ar.ofInt(r)), tail)
  {
    NumbersCompute(ar, a, Plus, b, tail, vars);
    NumbersCompute(ar, a, Minus, b, tail, vars);
    NumbersCompute(ar, a, Multiply, b, tail, vars);
    NumbersCompute(ar, a, Div, b, tail, vars);
    NumbersCompute(ar, a, Modulus, b, tail, vars);
    if ar.toInt(b) != 0 {
      RemainderIsTruncated(ar.toInt(a), ar.toInt(b));
    }
  }

  /** A number, its negation, and a variable. */
  lemma OperandsCompute<V>(ar: Arith<V>, v: V, name: string, tail: seq<Lexeme<V>>, vars: Vars<V>)
    requires EndsExpression(tail)
    ensures Expression(ar, [Tok(Number(v))] + tail, vars) == Out(Ok(v), tail)
    ensures Expression(ar, [Tok(Sym(Minus)), Tok(Number(v))] + tail, vars) == Out(Ok(ar.neg(v)), tail)
    ensures Expression(ar, [Tok(Sym(Plus)), Tok(Number(v))] + tail, vars) == Out(Ok(v), tail)
    ensures var o := Expression(ar, [Tok(Name(name))] + tail, vars);
            if name in vars then o == Out(Ok(vars[name]), tail) else o.res == Err(Undefined(name))
  {
    var num := Num(v);
    PrimaryComputes(ar, num, tail, vars);
    PrimaryComputes(ar, Neg(num), tail, vars);
    PrimaryComputes(ar, Pos(num), tail, vars);
    PrimaryComputes(ar, Var(name), tail, vars);
    assert Tokens(Neg(num)) == [Tok(Sym(Minus)), Tok(Number(v))];
    assert Tokens(Pos(num)) == [Tok(Sym(Plus)), Tok(Number(v))];
  }

  lemma PrimaryComputes<V>(ar: Arith<V>, t: Expr<V>, tail: seq<Lexeme<V>>, vars: Vars<V>)
    requires IsPrimary(t) && EndsExpression(tail)
    ensures Yields(Expression(ar, Tokens(t) + tail, vars), Eval(ar, t, vars), tail)
  {
    Inclusions(t);
    ExpressionYields(ar, t, tail, vars);
  }

  // ----- and nothing else is accepted -----

  /** `t` accounts for the tokens between `s` and what is left, and for the value. */
  ghost predicate Explains<V>(ar: Arith<V>, t: Expr<V>, s: seq<Lexeme<V>>, o: Out<V, V>, vars: Vars<V>) {
    s == Tokens(t) + o.rest && o.res.Ok? && Eval(ar, t, vars) == o.res
  }

  lemma {:induction false} PrimaryExplained<V>(ar: Arith<V>, s: seq<Lexeme<V>>, vars: Vars<V>) returns (t: Expr<V>)
    requires Primary(ar, s, vars).res.Ok?
    ensures IsPrimary(t) && Explains(ar, t, s, Primary(ar, s, vars), vars)
    decreases |s|, 0
  {
    var x, rest := s[0].t, s[1..];
    assert s == [Tok(x)] + rest;
    PrimaryStep(ar, x, rest, vars);
    match x
    case Number(v) => t := Num(v);
    case Name(n) => t := Var(n);
    case Sym(op) =>
      if op == OpenParen {
        t := ParenExplained(ar, rest, vars);
      } else {
        var e := PrimaryExplained(ar, rest, vars);
        t := if op == Minus then Neg(e) else Pos(e);
        SplitTokens(t, Primary(ar, rest, vars).rest);
      }
  }

  lemma {:induction false} ParenExplained<V>(ar: Arith<V>, rest: seq<Lexeme<V>>, vars: Vars<V>) returns (t: Expr<V>)
    requires Primary(ar, [Tok(Sym(OpenParen))] + rest, vars).res.Ok?
    ensures IsPrimary(t)
    ensures Explains(ar, t, [Tok(Sym(OpenParen))] + rest, Primary(ar, [Tok(Sym(OpenParen))] + rest, vars), vars)
    decreases |rest|, 4
  {
    PrimaryStep(ar, Sym(OpenParen), rest, vars);
    assert ([Tok(Sym(OpenParen))] + rest)[1..] == rest;
    var e := ExpressionExplained(ar, rest, vars);
    t := Paren(e);
    var d := Expression(ar, rest, vars);
    assert d.rest == [Tok(Sym(CloseParen))] + d.rest[1..];
    SplitTokens(t, d.rest[1..]);
  }

  lemma {:induction false} TermExplained<V>(ar: Arith<V>, s: seq<Lexeme<V>>, vars: Vars<V>) returns (t: Expr<V>)
    requires Term(ar, s, vars).res.Ok?
    ensures IsTerm(t) && Explains(ar, t, s, Term(ar, s, vars), vars)
    decreases |s|, 1
  {
    var p := PrimaryExplained(ar, s, vars);
    var o := Primary(ar, s, vars);
    t := TermLoopExplained(ar, p, s, o.res.value, o.rest, vars);
  }

  /** `l` is the tree of what was read before the loop, from `s0` on. */
  lemma {:induction false} TermLoopExplained<V>(ar: Arith<V>, l: Expr<V>, s0: seq<Lexeme<V>>, left: V,
                                                s: seq<Lexeme<V>>, vars: Vars<V>)
    returns (t: Expr<V>)
    requires IsChain(l) && s0 == Tokens(l) + s && Eval(ar, l, vars) == Ok(left) && TermLoop(ar, left, s, vars).res.Ok?
    ensures IsTerm(t) && Explains(ar, t, s0, TermLoop(ar, left, s, vars), vars)
    decreases |s|, 0
  {
    if !MulOp(s[0].t) {
      t := l;
    } else {
      var op, rest := s[0].t.s, s[1..];
      assert s == [Tok(Sym(op))] + rest;
      TermLoopStep(ar, left, op, rest, vars);
      if op == Modulus {
        var r := TermExplained(ar, rest, vars);
        t := Bin(op, l, r);
        ModulusExplained(ar, t, left, rest, vars);
      } else {
        var r := PrimaryExplained(ar, rest, vars);
        var o := Primary(ar, rest, vars);
        SplitTokens(Bin(op, l, r), o.rest);
        EvalBin(ar, Bin(op, l, r), left, o.res.value, vars);
        t := TermLoopExplained(ar, Bin(op, l, r), s0, Operate(ar, op, left, o.res.value).value, o.rest, vars);
      }
    }
  }

  lemma ModulusExplained<V>(ar: Arith<V>, t: Expr<V>, left: V, rest: seq<Lexeme<V>>, vars: Vars<V>)
    requires t.Bin? && t.op == Modulus && Eval(ar, t.l, vars) == Ok(left) && Term(ar, rest, vars).res.Ok?
    requires Explains(ar, t.r, rest, Term(ar, rest, vars), vars)
    requires TermLoop(ar, left, [Tok(Sym(Modulus))] + rest, vars).res.Ok?
    ensures Explains(ar, t, Tokens(t.l) + ([Tok(Sym(Modulus))] + rest),
                     TermLoop(ar, left, [Tok(Sym(Modulus))] + rest, vars), vars)
  {
    var o := Term(ar, rest, vars);
    TermLoopStep(ar, left, Modulus, rest, vars);
    SplitTokens(t, o.rest);
    EvalBin(ar, t, left, o.res.value, vars);
    TermLoopEnds(ar, left, rest, vars);
  }

  /** After the term on the right of `%` the loop has nothing left to do. */
  lemma TermLoopEnds<V>(ar: Arith<V>, left: V, s: seq<Lexeme<V>>, vars: Vars<V>)
    requires Term(ar, s, vars).res.Ok?
    ensures forall v :: TermLoop(ar, v, Term(ar, s, vars).rest, vars) == Out(Ok(v), Term(ar, s, vars).rest)
  {
  }

  /** A successful parse is the token list of a tree of the grammar, with that tree's value. */
  lemma {:induction false} ExpressionExplained<V>(ar: Arith<V>, s: seq<Lexeme<V>>, vars: Vars<V>) returns (t: Expr<V>)
    requires Expression(ar, s, vars).res.Ok?
    ensures IsExpression(t) && Explains(ar, t, s, Expression(ar, s, vars), vars)
    decreases |s|, 3
  {
    ExpressionStep(ar, s, vars);
    var e := TermExplained(ar, s, vars);
    var o := Term(ar, s, vars);
    t := ExpressionLoopExplained(ar, e, s, o.res.value, o.rest, vars);
  }

  lemma {:induction false} ExpressionLoopExplained<V>(ar: Arith<V>, l: Expr<V>, s0: seq<Lexeme<V>>, left: V,
                                                      s: seq<Lexeme<V>>, vars: Vars<V>) returns (t: Expr<V>)
    requires EndsTerm(s) && IsExpression(l) && s0 == Tokens(l) + s && Eval(ar, l, vars) == Ok(left)
    requires ExpressionLoop(ar, left, s, vars).res.Ok?
    ensures IsExpression(t) && Explains(ar, t, s0, ExpressionLoop(ar, left, s, vars), vars)
    decreases |s|, 2
  {
    if !AddOp(s[0].t) {
      t := l;
    } else {
      var op, rest := s[0].t.s, s[1..];
      assert s == [Tok(Sym(op))] + rest;
      ExpressionLoopStep(ar, left, op, rest, vars);
      var r := TermExplained(ar, rest, vars);
      var o := Term(ar, rest, vars);
      SplitTokens(Bin(op, l, r), o.rest);
      t := ExpressionLoopExplained(ar, Bin(op, l, r), s0, Operate(ar, op, left, o.res.value).value, o.rest, vars);
    }
  }

  // ----- any tree at all, parenthesised where the grammar needs it -----

  predicate Arithmetic<V>(t: Expr<V>) {
    match t
    case Num(_) => true
    case Var(_) => true
    case Neg(e) => Arithmetic(e)
    case Pos(e) => Arithmetic(e)
    case Paren(e) => Arithmetic(e)
    case Bin(op, l, r) => (MulOp<V>(Sym(op)) || AddOp<V>(Sym(op))) && Arithmetic(l) && Arithmetic(r)
  }

  /** 0 for sums, 1 for `%`, 2 for products and quotients, 3 for primaries. */
  function Level<V>(t: Expr<V>): nat {
    if !t.Bin? then 3 else if t.op == Modulus then 1 else if t.op == Multiply || t.op == Div then 2 else 0
  }

  /** The tree with parentheses around every operand that binds too loosely for its place. */
  function Fit<V>(t: Expr<V>, level: nat): Expr<V> {
    var body :=
      match t
      case Num(_) => t
      case Var(_) => t
      case Neg(e) => Neg(Fit(e, 3))
      case Pos(e) => Pos(Fit(e, 3))
      case Paren(e) => Paren(Fit(e, 0))
      case Bin(op, l, r) =>
        if op == Modulus then Bin(op, Fit(l, 2), Fit(r, 1))
        else if op == Multiply || op == Div then Bin(op, Fit(l, 2), Fit(r, 3))
        else Bin(op, Fit(l, 0), Fit(r, 1));
    if Level(t) < level then Paren(body) else body
  }

  lemma Inclusions<V>(t: Expr<V>)
    ensures IsPrimary(t) ==> IsChain(t)
    ensures IsChain(t) ==> IsTerm(t)
    ensures IsTerm(t) ==> IsExpression(t)
  {
  }

  lemma Parts<V>(t: Expr<V>)
    requires IsExpression(t)
    ensures !t.Bin? ==> IsPrimary(t)
    ensures t.Neg? || t.Pos? ==> IsExpression(t.e)
    ensures t.Bin? ==> (MulOp<V>(Sym(t.op)) || AddOp<V>(Sym(t.op))) && IsExpression(t.l) && IsExpression(t.r)
  {
    if t.Bin? {
      Inclusions(t.l);
      Inclusions(t.r);
      if !(t.op == Plus || t.op == Minus) {
        assert IsTerm(t);
        if t.op != Modulus {
          assert IsChain(t);
        }
      }
    } else {
      assert IsTerm(t);
      assert IsChain(t);
      assert IsPrimary(t);
      if t.Neg? || t.Pos? {
        Inclusions(t.e);
      }
    }
  }

  lemma {:induction false} FitIsGrammatical<V>(ar: Arith<V>, t: Expr<V>, level: nat, vars: Vars<V>)
    requires Arithmetic(t) && level <= 3
    ensures level == 0 ==> IsExpression(Fit(t, level))
    ensures level == 1 ==> IsTerm(Fit(t, level))
    ensures level == 2 ==> IsChain(Fit(t, level))
    ensures level == 3 ==> IsPrimary(Fit(t, level))
    ensures Eval(ar, Fit(t, level), vars) == Eval(ar, t, vars)
  {
    Inclusions(Fit(t, level));
    match t
    case Num(_) =>
    case Var(_) =>
    case Neg(e) => FitIsGrammatical(ar, e, 3, vars);
    case Pos(e) => FitIsGrammatical(ar, e, 3, vars);
    case Paren(e) => FitIsGrammatical(ar, e, 0, vars);
    case Bin(op, l, r) =>
      var (a, b) := if op == Modulus then (2, 1) else if op == Multiply || op == Div then (2, 3) else (0, 1);
      FitIsGrammatical(ar, l, a, vars);
      FitIsGrammatical(ar, r, b, vars);
      var body := Bin(op, Fit(l, a), Fit(r, b));
      assert Level(t) == 1 ==> IsTerm(body);
      assert Level(t) == 2 ==> IsChain(body);
      assert Level(t) == 0 ==> IsExpression(body);
      Inclusions(body);
      Inclusions(Paren(body));
      assert IsPrimary(Paren(body));
  }

  /** Rendering any arithmetic tree and evaluating the tokens gives the tree's value, or its error. */
  lemma EveryTreeRoundTrips<V>(ar: Arith<V>, t: Expr<V>, tail: seq<Lexeme<V>>, vars: Vars<V>)
    requires Arithmetic(t) && EndsExpression(tail)
    ensures Yields(Expression(ar, Tokens(Fit(t, 0)) + tail, vars), Eval(ar, t, vars), tail)
  {
    FitIsGrammatical(ar, t, 0, vars);
    ExpressionYields(ar, Fit(t, 0), tail, vars);
  }

  /** The comment in the source gives `%` a primary on its right; the code gives it a whole term. */
  lemma ModuloTakesAWholeTerm<V>(ar: Arith<V>, a: V, b: V, c: V, tail: seq<Lexeme<V>>, vars: Vars<V>)
    requires EndsExpression(tail)
    ensures var s := [Tok(Number(a)), Tok(Sym(Modulus)), Tok(Number(b)), Tok(Sym(Multiply)), Tok(Number(c))];
            Yields(Expression(ar, s + tail, vars),
                   Eval(ar, Bin(Modulus, Num(a), Bin(Multiply, Num(b), Num(c))), vars), tail)
  {
    var r := Bin(Multiply, Num(b), Num(c));
    var t := Bin(Modulus, Num(a), r);
    Inclusions(r.l);
    assert IsChain(r);
    Inclusions(r);
    Inclusions(t.l);
    assert IsTerm(t);
    Inclusions(t);
    assert Tokens(r) == [Tok(Number(b)), Tok(Sym(Multiply)), Tok(Number(c))];
    assert Tokens(t) == [Tok(Number(a)), Tok(Sym(Modulus)), Tok(Number(b)), Tok(Sym(Multiply)), Tok(Number(c))];
    ExpressionYields(ar, t, tail, vars);
  }
}
