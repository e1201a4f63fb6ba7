/**
 The calculator's recursive descent, as functions of the logical token stream: the pushed-back
 token, if any, followed by the unread source. Numbers belong to any type with any
 arithmetic, so the results hold for rounding doubles too. Reading past the end and reading a
 bad character are errors like the others.
 */
module CalculatorSpec {

  datatype Symbol =
    | Quit | Print | Let
    | OpenParen | CloseParen
    | Plus | Minus | Multiply
    | Div | Modulus | Equals

  datatype Token<V> = Number(value: V) | Name(name: string) | Sym(s: Symbol)

  /** What the lexer finds next in the source: a token, or a character it rejects. */
  datatype Lexeme<V> = Tok(t: Token<V>) | BadChar

  /** The number type's operations. `toInt` is `static_cast<int>`. */
  datatype Arith<!V> = Arith(
    add: (V, V) -> V, sub: (V, V) -> V, mul: (V, V) -> V, div: (V, V) -> V, neg: V -> V,
    isZero: V -> bool, toInt: V -> int, ofInt: int -> V)

  datatype Error =
    | EndOfInput
    | BadToken
    | NameExpected
    | EqualsMissing(name: string)
    | Redefinition(name: string)
    | Undefined(name: string)
    | DivideByZero
    | ModuloByZero
    | CloseParenExpected
    | PrimaryExpected

  datatype Result<T> = Ok(value: T) | Err(error: Error)

  /** A parsed value or an error, and the stream that is left. */
  datatype Out<T, V> = Out(res: Result<T>, rest: seq<Lexeme<V>>)

  type Vars<V> = map<string, V>

  ghost predicate IsSuffix<V>(rest: seq<Lexeme<V>>, s: seq<Lexeme<V>>) {
    |rest| <= |s| && rest == s[|s| - |rest|..]
  }

  predicate Is<V>(t: Token<V>, s: Symbol) {
    t.Sym? && t.s == s
  }

  predicate MulOp<V>(t: Token<V>) {
    t.Sym? && (t.s == Multiply || t.s == Div || t.s == Modulus)
  }

  predicate AddOp<V>(t: Token<V>) {
    t.Sym? && (t.s == Plus || t.s == Minus)
  }

  /** The next token exists and does not continue a term. */
  predicate EndsTerm<V>(s: seq<Lexeme<V>>) {
    s != [] && s[0].Tok? && !MulOp(s[0].t)
  }

  /** The next token exists and does not continue an expression. */
  predicate EndsExpression<V>(s: seq<Lexeme<V>>) {
    EndsTerm(s) && !AddOp(s[0].t)
  }

  // ----- the remainder operator of C++ -----

  /** The sign of the result is the sign of the dividend. */
  function Remainder(a: int, b: int): int
    requires b != 0
  {
    var m := if b > 0 then b else -b;
    if a >= 0 then a % m else -((-a) % m)
  }

  lemma RemainderSpec(a: int, b: int)
    requires b != 0
    ensures exists q :: a == q * b + Remainder(a, b)
    ensures a >= 0 ==> 0 <= Remainder(a, b)
    ensures a <= 0 ==> Remainder(a, b) <= 0
    ensures -(if b > 0 then b else -b) < Remainder(a, b) < (if b > 0 then b else -b)
  {
    var m := if b > 0 then b else -b;
    var q := if a >= 0 then a / m else -((-a) / m);
    var r := Remainder(a, b);
    assert a == q * m + r;
    assert a == (if b > 0 then q else -q) * b + r;
  }

  // ----- the token stream -----

  function Get<V>(s: seq<Lexeme<V>>): (o: Out<Token<V>, V>)
    ensures IsSuffix(o.rest, s) && (o.res.Ok? ==> s != [] && s[0] == Tok(o.res.value))
    ensures s != [] ==> o.rest == s[1..]
    ensures s == [] ==> o == Out(Err(EndOfInput), s)
  {
    if s == [] then Out(Err(EndOfInput), [])
    else if s[0].BadChar? then Out(Err(BadToken), s[1..])
    else Out(Ok(s[0].t), s[1..])
  }

  /** `ignore`: everything through the next token of this kind. */
  function Ignore<V>(s: seq<Lexeme<V>>, kind: Symbol): (o: Out<(), V>)
    ensures IsSuffix(o.rest, s) && (o.res.Ok? ==> |o.rest| < |s|)
  {
    var g := Get(s);
    match g.res
    case Err(e) => Out(Err(e), g.rest)
    case Ok(t) => if Is(t, kind) then Out(Ok(()), g.rest) else Ignore(g.rest, kind)
  }

  // ----- operations -----

  function Lookup<V>(vars: Vars<V>, name: string): Result<V> {
    if name in vars then Ok(vars[name]) else Err(Undefined(name))
  }

  function Negate<V>(ar: Arith<V>, r: Result<V>): Result<V> {
    if r.Ok? then Ok(ar.neg(r.value)) else r
  }

  /** The five binary operations; `/` and `%` test the right operand first. */
  function Operate<V>(ar: Arith<V>, op: Symbol, a: V, b: V): Result<V> {
    match op
    case Plus => Ok(ar.add(a, b))
    case Minus => Ok(ar.sub(a, b))
    case Multiply => Ok(ar.mul(a, b))
    case Div => if ar.isZero(b) then Err(DivideByZero) else Ok(ar.div(a, b))
    case Modulus =>
      if ar.toInt(b) == 0 then Err(ModuloByZero)
      else Ok(ar.ofInt(Remainder(ar.toInt(a), ar.toInt(b))))
    case _ => Ok(a)
  }

  // ----- expression, term, primary -----

  function Primary<V>(ar: Arith<V>, s: seq<Lexeme<V>>, vars: Vars<V>): (o: Out<V, V>)
    ensures |o.rest| <= |s| && (o.res.Ok? ==> |o.rest| < |s|)
    decreases |s|, 0
  {
    var g := Get(s);
    match g.res
    case Err(e) => Out(Err(e), g.rest)
    case Ok(Number(v)) => Out(Ok(v), g.rest)
    case Ok(Name(n)) => Out(Lookup(vars, n), g.rest)
    case Ok(Sym(OpenParen)) =>
      var d := Expression(ar, g.rest, vars);
      if d.res.Err? then d
      else
        var c := Get(d.rest);
        if Is(c.res.value, CloseParen) then Out(d.res, c.rest) else Out(Err(CloseParenExpected), c.rest)
    case Ok(Sym(Minus)) =>
      var p := Primary(ar, g.rest, vars);
      Out(Negate(ar, p.res), p.rest)
    case Ok(Sym(Plus)) => Primary(ar, g.rest, vars)
    case Ok(Sym(_)) => Out(Err(PrimaryExpected), g.rest)
  }

  function Term<V>(ar: Arith<V>, s: seq<Lexeme<V>>, vars: Vars<V>): (o: Out<V, V>)
    ensures |o.rest| <= |s| && (o.res.Ok? ==> |o.rest| < |s| && EndsTerm(o.rest))
    decreases |s|, 1
  {
    var p := Primary(ar, s, vars);
    if p.res.Err? then p else TermLoop(ar, p.res.value, p.rest, vars)
  }

  /** The right operand is a primary, but a whole term after `%`. */
  function TermLoop<V>(ar: Arith<V>, left: V, s: seq<Lexeme<V>>, vars: Vars<V>): (o: Out<V, V>)
    ensures |o.rest| <= |s| && (o.res.Ok? ==> EndsTerm(o.rest))
    decreases |s|, 0
  {
    var g := Get(s);
    if g.res.Err? then Out(Err(g.res.error), g.rest)
    else if !MulOp(g.res.value) then Out(Ok(left), s)
    else
      var op := g.res.value.s;
      var r := if op == Modulus then Term(ar, g.rest, vars) else Primary(ar, g.rest, vars);
      if r.res.Err? then r
      else
        var v := Operate(ar, op, left, r.res.value);
        if v.Err? then Out(v, r.rest) else TermLoop(ar, v.value, r.rest, vars)
  }

  function Expression<V>(ar: Arith<V>, s: seq<Lexeme<V>>, vars: Vars<V>): (o: Out<V, V>)
    ensures |o.rest| <= |s| && (o.res.Ok? ==> |o.rest| < |s| && EndsExpression(o.rest))
    decreases |s|, 3
  {
    var t := Term(ar, s, vars);
    if t.res.Err? then t else ExpressionLoop(ar, t.res.value, t.rest, vars)
  }

  function ExpressionLoop<V>(ar: Arith<V>, left: V, s: seq<Lexeme<V>>, vars: Vars<V>): (o: Out<V, V>)
    requires EndsTerm(s)
    ensures |o.rest| <= |s| && (o.res.Ok? ==> EndsExpression(o.rest))
    decreases |s|, 2
  {
    var g := Get(s);
    if !AddOp(g.res.value) then Out(Ok(left), s)
    else
      var t := Term(ar, g.rest, vars);
      if t.res.Err? then t
      else ExpressionLoop(ar, Operate(ar, g.res.value.s, left, t.res.value).value, t.rest, vars)
  }

  // ----- one step of each function, seen from its first token -----

  lemma PrimaryStep<V>(ar: Arith<V>, x: Token<V>, s: seq<Lexeme<V>>, vars: Vars<V>)
    ensures var o := Primary(ar, [Tok(x)] + s, vars);
            match x
            case Number(v) => o == Out(Ok(v), s)
            case Name(n) => o == Out(Lookup(vars, n), s)
            case Sym(Minus) => o == Out(Negate(ar, Primary(ar, s, vars).res), Primary(ar, s, vars).rest)
            case Sym(Plus) => o == Primary(ar, s, vars)
            case Sym(OpenParen) =>
              var d := Expression(ar, s, vars);
              if d.res.Err? then o == d
              else (d.rest[0] == Tok(Sym(CloseParen)) ==> o == Out(d.res, d.rest[1..]))
            case _ => o == Out(Err(PrimaryExpected), s)
  {
    assert ([Tok(x)] + s)[1..] == s;
  }

  lemma TermLoopStep<V>(ar: Arith<V>, left: V, op: Symbol, s: seq<Lexeme<V>>, vars: Vars<V>)
    requires MulOp<V>(Sym(op))
    ensures var r := if op == Modulus then Term(ar, s, vars) else Primary(ar, s, vars);
            TermLoop(ar, left, [Tok(Sym(op))] + s, vars)
            == if r.res.Err? then r
               else
                 var v := Operate(ar, op, left, r.res.value);
                 if v.Err? then Out(v, r.rest) else TermLoop(ar, v.value, r.rest, vars)
  {
    assert ([Tok(Sym(op))] + s)[1..] == s;
  }

  lemma ExpressionLoopStep<V>(ar: Arith<V>, left: V, op: Symbol, s: seq<Lexeme<V>>, vars: Vars<V>)
    requires op == Plus || op == Minus
    ensures var t := Term(ar, s, vars);
            ExpressionLoop(ar, left, [Tok(Sym(op))] + s, vars)
            == if t.res.Err? then t
               else ExpressionLoop(ar, Operate(ar, op, left, t.res.value).value, t.rest, vars)
  {
    assert ([Tok(Sym(op))] + s)[1..] == s;
  }

  lemma ExpressionStep<V>(ar: Arith<V>, s: seq<Lexeme<V>>, vars: Vars<V>)
    ensures var t := Term(ar, s, vars);
            Expression(ar, s, vars) == if t.res.Err? then t else ExpressionLoop(ar, t.res.value, t.rest, vars)
  {
  }

  // ----- statements and the main loop -----

  /** `define_variable` refuses a name that exists; the other variables are unchanged. */
  function Define<V>(vars: Vars<V>, name: string, v: V): (Result<V>, Vars<V>) {
    if name in vars then (Err(Redefinition(name)), vars) else (Ok(v), vars[name := v])
  }

  function Declaration<V>(ar: Arith<V>, s: seq<Lexeme<V>>, vars: Vars<V>): (o: (Out<V, V>, Vars<V>))
    ensures |o.0.rest| <= |s| && (o.0.res.Ok? ==> |o.0.rest| < |s| && EndsExpression(o.0.rest))
  {
    var n := Get(s);
    match n.res
    case Err(e) => (Out(Err(e), n.rest), vars)
    case Ok(t) =>
      if !t.Name? then (Out(Err(NameExpected), n.rest), vars)
      else
        var eq := Get(n.rest);
        match eq.res
        case Err(e) => (Out(Err(e), eq.rest), vars)
        case Ok(q) =>
          if !Is(q, Equals) then (Out(Err(EqualsMissing(t.name)), eq.rest), vars)
          else
            var d := Expression(ar, eq.rest, vars);
            if d.res.Err? then (d, vars)
            else
              var (r, vars') := Define(vars, t.name, d.res.value);
              (Out(r, d.rest), vars')
  }

  function Statement<V>(ar: Arith<V>, s: seq<Lexeme<V>>, vars: Vars<V>): (o: (Out<V, V>, Vars<V>))
    ensures |o.0.rest| <= |s| && (o.0.res.Ok? ==> |o.0.rest| < |s| && EndsExpression(o.0.rest))
  {
    var g := Get(s);
    match g.res
    case Err(e) => (Out(Err(e), g.rest), vars)
    case Ok(t) =>
      if Is(t, Let) then Declaration(ar, g.rest, vars)
      else (Expression(ar, s, vars), vars)
  }

  /** The first token that is not `;`. */
  function SkipPrints<V>(s: seq<Lexeme<V>>): (o: Out<Token<V>, V>)
    ensures |o.rest| <= |s|
    ensures o.res.Ok? ==> |o.rest| < |s|
  {
    var g := Get(s);
    if g.res.Ok? && Is(g.res.value, Print) then SkipPrints(g.rest) else g
  }

  /** How `run` ends: at `quit`, or by an error raised while recovering from one. */
  datatype End = Finished | Aborted(error: Error)

  /** Everything `run` reports, in order, and how it ends. */
  datatype Session<V> = Session(log: seq<Result<V>>, end: End)

  function Logged<V>(r: Result<V>, s: Session<V>): Session<V> {
    Session([r] + s.log, s.end)
  }

  function Run<V>(ar: Arith<V>, s: seq<Lexeme<V>>, vars: Vars<V>): Session<V>
    decreases |s|, 1
  {
    var t := SkipPrints(s);
    match t.res
    case Err(e) => Recover(ar, e, t.rest, vars)
    case Ok(tok) =>
      if Is(tok, Quit) then Session([], Finished)
      else
        var (o, vars') := Statement(ar, [Tok(tok)] + t.rest, vars);
        if o.res.Ok? then Logged(o.res, Run(ar, o.rest, vars'))
        else Recover(ar, o.res.error, o.rest, vars')
  }

  /** The handler: report, then resume after the next `;` of what is left; an error there escapes. */
  function Recover<V>(ar: Arith<V>, error: Error, s: seq<Lexeme<V>>, vars: Vars<V>): Session<V>
    decreases |s|, 0
  {
    var i := Ignore(s, Print);
    if i.res.Err? then Session([Err(error)], Aborted(i.res.error))
    else Logged(Err(error), Run(ar, i.rest, vars))
  }
}
