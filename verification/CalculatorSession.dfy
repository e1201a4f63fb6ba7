/**
 Whole sessions of the calculator: reading never runs past a statement's `;` except to report
 an error on it, recovery resumes after the next `;`, and a program of well-formed statements
 logs each statement's own result, whatever errors come before it.
 */
module CalculatorSession {
  import opened CalculatorSpec
  import opened CalculatorGrammar

  /** A valid token other than `;`. */
  predicate Inner<V>(x: Lexeme<V>) {
    x.Tok? && !Is(x.t, Print)
  }

  ghost predicate AllInner<V>(s: seq<Lexeme<V>>) {
    forall i :: 0 <= i < |s| ==> Inner(s[i])
  }

  // ----- how far a parse reads -----

  /** `rest` is what remains of `s`, and everything read but the last `slack` lexemes is an inner token. */
  ghost predicate Reads<V>(s: seq<Lexeme<V>>, rest: seq<Lexeme<V>>, slack: nat) {
    IsSuffix(rest, s) && forall i :: 0 <= i < |s| - |rest| - slack ==> Inner(s[i])
  }

  /** A success reads inner tokens only; a failure may in addition have read the offending lexeme. */
  ghost predicate Careful<V>(s: seq<Lexeme<V>>, o: Out<V, V>) {
    Reads(s, o.rest, if o.res.Ok? then 0 else 1)
  }

  lemma ReadsTrans<V>(s: seq<Lexeme<V>>, m: seq<Lexeme<V>>, rest: seq<Lexeme<V>>, slack: nat)
    requires Reads(s, m, 0) && Reads(m, rest, slack)
    ensures Reads(s, rest, slack)
  {
    assert rest == s[|s| - |rest|..];
    forall i | 0 <= i < |s| - |rest| - slack ensures Inner(s[i]) {
      if i >= |s| - |m| {
        assert s[i] == m[i - (|s| - |m|)];
      }
    }
  }

  lemma ReadOne<V>(s: seq<Lexeme<V>>)
    requires s != []
    ensures Reads(s, s[1..], 1) && (Inner(s[0]) ==> Reads(s, s[1..], 0))
  {
  }

  /** Reading one inner token, then doing `o` on what follows, is as careful as `o`. */
  lemma CarefulAfter<V>(s: seq<Lexeme<V>>, o: Out<V, V>)
    requires s != [] && Inner(s[0]) && Careful(s[1..], o)
    ensures Careful(s, o)
  {
    ReadOne(s);
    ReadsTrans(s, s[1..], o.rest, if o.res.Ok? then 0 else 1);
  }

  lemma CarefulThen<V>(s: seq<Lexeme<V>>, first: Out<V, V>, o: Out<V, V>)
    requires first.res.Ok? && Careful(s, first) && Careful(first.rest, o)
    ensures Careful(s, o)
  {
    ReadsTrans(s, first.rest, o.rest, if o.res.Ok? then 0 else 1);
  }

  lemma {:induction false} PrimaryCareful<V>(ar: Arith<V>, s: seq<Lexeme<V>>, vars: Vars<V>)
    ensures Careful(s, Primary(ar, s, vars))
    decreases |s|, 0
  {
    if s != [] {
      ReadOne(s);
      if s[0].Tok? {
        var x, rest := s[0].t, s[1..];
        assert s == [Tok(x)] + rest;
        PrimaryStep(ar, x, rest, vars);
        if Is(x, OpenParen) {
          ParenCareful(ar, s, vars);
        } else if Is(x, Minus) || Is(x, Plus) {
          PrimaryCareful(ar, rest, vars);
          CarefulAfter(s, Primary(ar, rest, vars));
        }
      }
    }
  }

  lemma {:induction false} ParenCareful<V>(ar: Arith<V>, s: seq<Lexeme<V>>, vars: Vars<V>)
    requires s != [] && s[0] == Tok(Sym(OpenParen))
    ensures Careful(s, Primary(ar, s, vars))
    decreases |s[1..]|, 4
  {
    ExpressionCareful(ar, s[1..], vars);
    var d := Expression(ar, s[1..], vars);
    CarefulAfter(s, d);
    if d.res.Ok? {
      ReadOne(d.rest);
      var o := Primary(ar, s, vars);
      assert o.rest == d.rest[1..];
      ReadsTrans(s, d.rest, o.rest, if o.res.Ok? then 0 else 1);
    }
  }

  lemma {:induction false} TermCareful<V>(ar: Arith<V>, s: seq<Lexeme<V>>, vars: Vars<V>)
    ensures Careful(s, Term(ar, s, vars))
    decreases |s|, 1
  {
    PrimaryCareful(ar, s, vars);
    var p := Primary(ar, s, vars);
    if p.res.Ok? {
      TermLoopCareful(ar, p.res.value, p.rest, vars);
      CarefulThen(s, p, TermLoop(ar, p.res.value, p.rest, vars));
    }
  }

  lemma {:induction false} OperandCareful<V>(ar: Arith<V>, op: Symbol, s: seq<Lexeme<V>>, vars: Vars<V>)
    ensures Careful(s, if op == Modulus then Term(ar, s, vars) else Primary(ar, s, vars))
    decreases |s|, 2
  {
    if op == Modulus {
      TermCareful(ar, s, vars);
    } else {
      PrimaryCareful(ar, s, vars);
    }
  }

  /** An operator, its operand, and whatever follows if that went well. */
  lemma TermLoopAfter<V>(ar: Arith<V>, left: V, op: Symbol, s: seq<Lexeme<V>>, vars: Vars<V>, r: Out<V, V>)
    requires MulOp<V>(Sym(op)) && r == (if op == Modulus then Term(ar, s, vars) else Primary(ar, s, vars))
    requires Careful(s, r)
    requires r.res.Ok? && Operate(ar, op, left, r.res.value).Ok? ==>
               Careful(r.rest, TermLoop(ar, Operate(ar, op, left, r.res.value).value, r.rest, vars))
    ensures Careful([Tok(Sym(op))] + s, TermLoop(ar, left, [Tok(Sym(op))] + s, vars))
  {
    var all := [Tok(Sym(op))] + s;
    assert all[1..] == s;
    TermLoopStep(ar, left, op, s, vars);
    CarefulAfter(all, r);
    if r.res.Ok? && Operate(ar, op, left, r.res.value).Ok? {
      CarefulThen(all, r, TermLoop(ar, Operate(ar, op, left, r.res.value).value, r.rest, vars));
    }
  }

  lemma {:induction false} TermLoopCareful<V>(ar: Arith<V>, left: V, s: seq<Lexeme<V>>, vars: Vars<V>)
    ensures Careful(s, TermLoop(ar, left, s, vars))
    decreases |s|, 0
  {
    if s != [] {
      ReadOne(s);
      if s[0].Tok? && MulOp(s[0].t) {
        var op, rest := s[0].t.s, s[1..];
        assert s == [Tok(Sym(op))] + rest;
        OperandCareful(ar, op, rest, vars);
        var r := if op == Modulus then Term(ar, rest, vars) else Primary(ar, rest, vars);
        if r.res.Ok? && Operate(ar, op, left, r.res.value).Ok? {
          TermLoopCareful(ar, Operate(ar, op, left, r.res.value).value, r.rest, vars);
        }
        TermLoopAfter(ar, left, op, rest, vars, r);
      }
    }
  }

  lemma {:induction false} ExpressionCareful<V>(ar: Arith<V>, s: seq<Lexeme<V>>, vars: Vars<V>)
    ensures Careful(s, Expression(ar, s, vars))
    decreases |s|, 3
  {
    ExpressionStep(ar, s, vars);
    TermCareful(ar, s, vars);
    var t := Term(ar, s, vars);
    if t.res.Ok? {
      ExpressionLoopCareful(ar, t.res.value, t.rest, vars);
      CarefulThen(s, t, ExpressionLoop(ar, t.res.value, t.rest, vars));
    }
  }

  lemma {:induction false} ExpressionLoopCareful<V>(ar: Arith<V>, left: V, s: seq<Lexeme<V>>, vars: Vars<V>)
    requires EndsTerm(s)
    ensures Careful(s, ExpressionLoop(ar, left, s, vars))
    decreases |s|, 2
  {
    if AddOp(s[0].t) {
      var op, rest := s[0].t.s, s[1..];
      assert s == [Tok(Sym(op))] + rest;
      ExpressionLoopStep(ar, left, op, rest, vars);
      TermCareful(ar, rest, vars);
      var t := Term(ar, rest, vars);
      CarefulAfter(s, t);
      if t.res.Ok? {
        var v := Operate(ar, op, left, t.res.value).value;
        ExpressionLoopCareful(ar, v, t.rest, vars);
        CarefulThen(s, t, ExpressionLoop(ar, v, t.rest, vars));
      }
    }
  }

  lemma StatementCareful<V>(ar: Arith<V>, s: seq<Lexeme<V>>, vars: Vars<V>)
    ensures Careful(s, Statement(ar, s, vars).0)
  {
    if s != [] && s[0].Tok? {
      ReadOne(s);
      if Is(s[0].t, Let) {
        DeclarationCareful(ar, s[1..], vars);
        CarefulAfter(s, Declaration(ar, s[1..], vars).0);
      } else {
        ExpressionCareful(ar, s, vars);
      }
    }
  }

  lemma DeclarationStep<V>(ar: Arith<V>, n: string, s: seq<Lexeme<V>>, rest: seq<Lexeme<V>>, vars: Vars<V>)
    requires s != [] && s[0] == Tok(Name(n)) && s[1..] != [] && s[1..][0] == Tok(Sym(Equals)) && s[1..][1..] == rest
    ensures var (o, d) := (Declaration(ar, s, vars).0, Expression(ar, rest, vars));
            o.rest == d.rest && (o.res.Ok? ==> d.res.Ok?)
  {
  }

  lemma DeclarationCareful<V>(ar: Arith<V>, s: seq<Lexeme<V>>, vars: Vars<V>)
    ensures Careful(s, Declaration(ar, s, vars).0)
  {
    if s != [] && s[0].Tok? && s[0].t.Name? {
      ReadOne(s);
      if s[1..] != [] {
        AfterNameCareful(ar, s, vars);
      }
    }
  }

  lemma AfterNameCareful<V>(ar: Arith<V>, s: seq<Lexeme<V>>, vars: Vars<V>)
    requires s != [] && s[0].Tok? && s[0].t.Name? && s[1..] != [] && Reads(s, s[1..], 0)
    ensures Careful(s, Declaration(ar, s, vars).0)
  {
    var s1 := s[1..];
    ReadOne(s1);
    if s1[0].Tok? && Is(s1[0].t, Equals) {
      var d := Expression(ar, s1[1..], vars);
      DeclarationStep(ar, s[0].t.name, s, s1[1..], vars);
      ExpressionCareful(ar, s1[1..], vars);
      CarefulAfter(s1, d);
      ReadsTrans(s, s1, d.rest, if Declaration(ar, s, vars).0.res.Ok? then 0 else 1);
    } else {
      ReadsTrans(s, s1, s1[1..], 1);
    }
  }

  // ----- recovery -----

  lemma IgnoreStep<V>(x: Lexeme<V>, rest: seq<Lexeme<V>>)
    requires x.Tok?
    ensures Ignore([x] + rest, Print) == if Is(x.t, Print) then Out(Ok(()), rest) else Ignore(rest, Print)
  {
    assert ([x] + rest)[1..] == rest;
  }

  /** Searching `s` ends just after a `;`, with `tail` left. */
  ghost predicate Finds<V>(s: seq<Lexeme<V>>, tail: seq<Lexeme<V>>) {
    Ignore(s, Print) == Out(Ok(()), tail)
  }

  lemma FindsCons<V>(x: Lexeme<V>, s: seq<Lexeme<V>>, tail: seq<Lexeme<V>>)
    requires Inner(x) && Finds(s, tail)
    ensures Finds([x] + s, tail)
  {
    IgnoreStep(x, s);
  }

  lemma InnerTail<V>(x: seq<Lexeme<V>>)
    requires AllInner(x) && x != []
    ensures Inner(x[0]) && AllInner(x[1..])
  {
  }

  lemma ConsConcat<T>(x: seq<T>, after: seq<T>)
    requires x != []
    ensures x + after == [x[0]] + (x[1..] + after)
  {
  }

  lemma {:induction false} FindsConcat<V>(x: seq<Lexeme<V>>, after: seq<Lexeme<V>>, tail: seq<Lexeme<V>>)
    requires AllInner(x) && Finds(after, tail)
    ensures Finds(x + after, tail)
    decreases |x|
  {
    if x == [] {
      assert x + after == after;
    } else {
      InnerTail(x);
      FindsConcat(x[1..], after, tail);
      FindsCons(x[0], x[1..] + after, tail);
      ConsConcat(x, after);
    }
  }

  lemma IgnoreFinds<V>(x: seq<Lexeme<V>>, tail: seq<Lexeme<V>>)
    requires AllInner(x)
    ensures Ignore(x + [Tok(Sym(Print))] + tail, Print) == Out(Ok(()), tail)
  {
    var after := [Tok(Sym(Print))] + tail;
    IgnoreStep(Tok(Sym(Print)), tail);
    FindsConcat(x, after, tail);
    assert x + [Tok(Sym(Print))] + tail == x + after;
  }

  /** After an error with only valid tokens and a `;` left, the session resumes just after the first `;`. */
  lemma RecoveryResumes<V>(ar: Arith<V>, error: Error, x: seq<Lexeme<V>>, tail: seq<Lexeme<V>>, vars: Vars<V>)
    requires AllInner(x)
    ensures Recover(ar, error, x + [Tok(Sym(Print))] + tail, vars) == Logged(Err(error), Run(ar, tail, vars))
  {
    IgnoreFinds(x, tail);
  }

  /**
   One statement of a session, whatever its tokens are: an error raised before its `;` costs
   this statement only; an error raised on the `;` itself, which is then already consumed,
   also costs everything up to the following `;`.
   */
  lemma StatementInSession<V>(ar: Arith<V>, x: seq<Lexeme<V>>, tail: seq<Lexeme<V>>, vars: Vars<V>)
    requires AllInner(x) && x != [] && x[0] != Tok(Sym(Quit))
    ensures var s := x + [Tok(Sym(Print))] + tail;
            var o := Statement(ar, s, vars).0;
            && |o.rest| >= |tail| && (o.res.Ok? ==> |o.rest| > |tail|)
            && (o.res.Err? ==>
                  Run(ar, s, vars)
                  == if |o.rest| > |tail| then Logged(o.res, Run(ar, tail, Statement(ar, s, vars).1))
                     else Recover(ar, o.res.error, tail, Statement(ar, s, vars).1))
            && (o.res.Ok? ==> Run(ar, s, vars) == Logged(o.res, Run(ar, o.rest, Statement(ar, s, vars).1)))
  {
    var s := x + [Tok(Sym(Print))] + tail;
    var (o, vars') := Statement(ar, s, vars);
    StatementCareful(ar, s, vars);
    assert s[|x|] == Tok(Sym(Print)) && !Inner(s[|x|]);
    assert s[0] == x[0] && [s[0]] + s[1..] == s;
    assert SkipPrints(s) == Out(Ok(x[0].t), s[1..]);
    var k := |s| - |o.rest|;
    if o.res.Err? {
      if |o.rest| > |tail| {
        assert o.rest == x[k..] + [Tok(Sym(Print))] + tail;
        RecoveryResumes(ar, o.res.error, x[k..], tail, vars');
      } else {
        assert o.rest == tail;
      }
    }
  }

  /**
   The second case of `StatementInSession`: an expression, an operator and then the `;`. The
   error is raised on the `;`, and the next statement, whatever its tokens `y`, is lost.
   */
  lemma StrayOperatorCostsTheNext<V>(ar: Arith<V>, e: Expr<V>, op: Symbol, y: seq<Lexeme<V>>, tail: seq<Lexeme<V>>,
                                     vars: Vars<V>)
    requires IsExpression(e) && Eval(ar, e, vars).Ok? && AddOp<V>(Sym(op)) && AllInner(y)
    ensures Run(ar, Tokens(e) + [Tok(Sym(op))] + [Tok(Sym(Print))] + (y + [Tok(Sym(Print))] + tail), vars)
         == Logged(Err(PrimaryExpected), Run(ar, tail, vars))
  {
    var rest := y + [Tok(Sym(Print))] + tail;
    var x := Tokens(e) + [Tok(Sym(op))];
    TokensAreInner(e);
    StrayOperator(ar, e, op, rest, vars);
    StatementInSession(ar, x, rest, vars);
    RecoveryResumes(ar, PrimaryExpected, y, tail, vars);
  }

  lemma StrayOperator<V>(ar: Arith<V>, e: Expr<V>, op: Symbol, rest: seq<Lexeme<V>>, vars: Vars<V>)
    requires IsExpression(e) && Eval(ar, e, vars).Ok? && AddOp<V>(Sym(op))
    ensures Statement(ar, Tokens(e) + [Tok(Sym(op))] + [Tok(Sym(Print))] + rest, vars)
         == (Out(Err(PrimaryExpected), rest), vars)
  {
    var after := [Tok(Sym(Print))] + rest;
    TokensAreInner(e);
    SumYields(ar, e, [Tok(Sym(op))] + after, vars);
    ExpressionLoopStep(ar, Eval(ar, e, vars).value, op, after, vars);
    NoTermAtPrint(ar, rest, vars);
    FourParts(Tokens(e), [Tok(Sym(op))], [Tok(Sym(Print))], rest);
    NotLet(ar, Tokens(e) + ([Tok(Sym(op))] + after), vars);
  }

  lemma NoTermAtPrint<V>(ar: Arith<V>, rest: seq<Lexeme<V>>, vars: Vars<V>)
    ensures Term(ar, [Tok(Sym(Print))] + rest, vars) == Out(Err(PrimaryExpected), rest)
  {
    PrimaryStep(ar, Sym(Print), rest, vars);
  }

  lemma NotLet<V>(ar: Arith<V>, s: seq<Lexeme<V>>, vars: Vars<V>)
    requires s != [] && s[0].Tok? && !Is(s[0].t, Let)
    ensures Statement(ar, s, vars) == (Expression(ar, s, vars), vars)
  {
  }

  lemma FourParts<T>(a: seq<T>, b: seq<T>, c: seq<T>, d: seq<T>)
    ensures a + b + c + d == a + (b + (c + d))
  {
  }

  // ----- programs -----

  datatype Stmt<V> = Show(e: Expr<V>) | Assign(name: string, e: Expr<V>)

  predicate WellFormed<V>(st: Stmt<V>) {
    IsExpression(st.e)
  }

  function StmtTokens<V>(st: Stmt<V>): seq<Lexeme<V>> {
    match st
    case Show(e) => Tokens(e)
    case Assign(n, e) => [Tok(Sym(Let)), Tok(Name(n)), Tok(Sym(Equals))] + Tokens(e)
  }

  function ProgramTokens<V>(program: seq<Stmt<V>>): seq<Lexeme<V>> {
    if program == [] then [Tok(Sym(Quit))]
    else StmtTokens(program[0]) + [Tok(Sym(Print))] + ProgramTokens(program[1..])
  }

  /** A definition takes effect only if its expression has a value and the name is new. */
  function Outcome<V>(ar: Arith<V>, st: Stmt<V>, vars: Vars<V>): (Result<V>, Vars<V>) {
    var r := Eval(ar, st.e, vars);
    if st.Show? || r.Err? then (r, vars)
    else if st.name in vars then (Err(Redefinition(st.name)), vars)
    else (r, vars[st.name := r.value])
  }

  function Outcomes<V>(ar: Arith<V>, program: seq<Stmt<V>>, vars: Vars<V>): seq<Result<V>> {
    if program == [] then []
    else
      var (r, vars') := Outcome(ar, program[0], vars);
      [r] + Outcomes(ar, program[1..], vars')
  }

  lemma {:induction false} TokensAreInner<V>(t: Expr<V>)
    requires IsExpression(t)
    ensures AllInner(Tokens(t)) && Tokens(t)[0] != Tok(Sym(Quit)) && Tokens(t)[0] != Tok(Sym(Let))
  {
    Parts(t);
    match t
    case Num(_) =>
    case Var(_) =>
    case Neg(e) => TokensAreInner(e);
    case Pos(e) => TokensAreInner(e);
    case Paren(e) => TokensAreInner(e);
    case Bin(op, l, r) =>
      TokensAreInner(l);
      TokensAreInner(r);
  }

  lemma DeclarationYields<V>(ar: Arith<V>, n: string, e: Expr<V>, after: seq<Lexeme<V>>, vars: Vars<V>)
    requires IsExpression(e) && EndsExpression(after)
    ensures var (o, vars') := Declaration(ar, [Tok(Name(n)), Tok(Sym(Equals))] + (Tokens(e) + after), vars);
            && (o.res, vars') == Outcome(ar, Assign(n, e), vars)
            && (Eval(ar, e, vars).Ok? ==> o.rest == after) && |o.rest| >= |after|
  {
    var s := [Tok(Name(n)), Tok(Sym(Equals))] + (Tokens(e) + after);
    ExpressionYields(ar, e, after, vars);
    assert s[1..][0] == Tok(Sym(Equals));
    assert s[1..][1..] == Tokens(e) + after;
  }

  lemma Regroup<T>(a: T, b: T, c: T, s: seq<T>, after: seq<T>)
    ensures ([a, b, c] + s) + after == [a] + ([b, c] + (s + after))
  {
  }

  lemma LetStep<V>(ar: Arith<V>, s: seq<Lexeme<V>>, vars: Vars<V>)
    ensures Statement(ar, [Tok(Sym(Let))] + s, vars) == Declaration(ar, s, vars)
  {
    assert ([Tok(Sym(Let))] + s)[1..] == s;
  }

  lemma AssignYields<V>(ar: Arith<V>, n: string, e: Expr<V>, after: seq<Lexeme<V>>, vars: Vars<V>)
    requires IsExpression(e) && EndsExpression(after)
    ensures var (o, vars') := Statement(ar, StmtTokens(Assign(n, e)) + after, vars);
            && (o.res, vars') == Outcome(ar, Assign(n, e), vars)
            && (Eval(ar, e, vars).Ok? ==> o.rest == after) && |o.rest| >= |after|
  {
    var declaration := [Tok(Name(n)), Tok(Sym(Equals))] + (Tokens(e) + after);
    DeclarationYields(ar, n, e, after, vars);
    LetStep(ar, declaration, vars);
    Regroup(Tok(Sym(Let)), Tok(Name(n)), Tok(Sym(Equals)), Tokens(e), after);
  }

  lemma ShowYields<V>(ar: Arith<V>, e: Expr<V>, after: seq<Lexeme<V>>, vars: Vars<V>)
    requires IsExpression(e) && EndsExpression(after)
    ensures var (o, vars') := Statement(ar, Tokens(e) + after, vars);
            && o.res == Eval(ar, e, vars) && vars' == vars
            && (o.res.Ok? ==> o.rest == after) && |o.rest| >= |after|
  {
    TokensAreInner(e);
    ExpressionYields(ar, e, after, vars);
    assert (Tokens(e) + after)[0] == Tokens(e)[0];
  }

  /** A well-formed statement does what its tree says, and its errors leave the `;` unread. */
  lemma StatementYields<V>(ar: Arith<V>, st: Stmt<V>, tail: seq<Lexeme<V>>, vars: Vars<V>)
    requires WellFormed(st)
    ensures var s := StmtTokens(st) + [Tok(Sym(Print))] + tail;
            var (o, vars') := Statement(ar, s, vars);
            && (o.res, vars') == Outcome(ar, st, vars)
            && (o.res.Ok? ==> o.rest == [Tok(Sym(Print))] + tail)
            && |o.rest| > |tail|
  {
    var after := [Tok(Sym(Print))] + tail;
    assert StmtTokens(st) + [Tok(Sym(Print))] + tail == StmtTokens(st) + after;
    match st
    case Show(e) => ShowYields(ar, e, after, vars);
    case Assign(n, e) => AssignYields(ar, n, e, after, vars);
  }

  lemma PrintIsSkipped<V>(ar: Arith<V>, tail: seq<Lexeme<V>>, vars: Vars<V>)
    ensures Run(ar, [Tok(Sym(Print))] + tail, vars) == Run(ar, tail, vars)
  {
    assert ([Tok(Sym(Print))] + tail)[1..] == tail;
    assert SkipPrints([Tok(Sym(Print))] + tail) == SkipPrints(tail);
  }

  lemma RunStatement<V>(ar: Arith<V>, st: Stmt<V>, rest: seq<Lexeme<V>>, vars: Vars<V>)
    requires WellFormed(st)
    ensures var (r, vars') := Outcome(ar, st, vars);
            Run(ar, StmtTokens(st) + [Tok(Sym(Print))] + rest, vars) == Logged(r, Run(ar, rest, vars'))
  {
    TokensAreInner(st.e);
    StatementYields(ar, st, rest, vars);
    StatementInSession(ar, StmtTokens(st), rest, vars);
    PrintIsSkipped(ar, rest, Outcome(ar, st, vars).1);
  }

  /**
   The session of a program: one log entry per statement, each the value or the error of its
   own tree in the variables defined so far, and a normal end at `quit`.
   */
  lemma {:induction false} ProgramSession<V>(ar: Arith<V>, program: seq<Stmt<V>>, vars: Vars<V>)
    requires forall st :: st in program ==> WellFormed(st)
    ensures Run(ar, ProgramTokens(program), vars) == Session(Outcomes(ar, program, vars), Finished)
    decreases |program|
  {
    if program != [] {
      assert program[0] in program && forall x :: x in program[1..] ==> x in program;
      RunStatement(ar, program[0], ProgramTokens(program[1..]), vars);
      ProgramSession(ar, program[1..], Outcome(ar, program[0], vars).1);
    }
  }
}
