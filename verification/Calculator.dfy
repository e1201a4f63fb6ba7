/**
 The calculator as objects: a token stream with one pushed-back token, a variable map, and
 the mutually recursive methods over them. Each method is proved to do what the function of
 `CalculatorSpec` does to the logical stream, and a token is never pushed back onto a full buffer.
 */
module Calculator {
  import opened CalculatorSpec

  class TokenStream<V> {
    var source: seq<Lexeme<V>>
    var full: bool
    var buffer: Token<V>

    /** The pushed-back token, if any, then the unread source. */
    ghost function Stream(): seq<Lexeme<V>>
      reads this
    {
      (if full then [Tok(buffer)] else []) + source
    }

    constructor (source: seq<Lexeme<V>>)
      ensures Stream() == source && !full
    {
      this.source, full, buffer := source, false, Sym(Quit);
    }

    method GetToken() returns (r: Result<Token<V>>)
      modifies this
      ensures !full && Out(r, Stream()) == Get(old(Stream()))
    {
      if full {
        full := false;
        assert source == ([Tok(buffer)] + source)[1..];
        return Ok(buffer);
      }
      if source == [] {
        return Err(EndOfInput);
      }
      var x := source[0];
      source := source[1..];
      r := if x.BadChar? then Err(BadToken) else Ok(x.t);
    }

    /** Refused, without effect, if a token is already pushed back. */
    method Putback(t: Token<V>) returns (accepted: bool)
      modifies this
      ensures accepted <==> !old(full)
      ensures accepted ==> full && Stream() == [Tok(t)] + old(Stream())
      ensures !accepted ==> full && Stream() == old(Stream())
    {
      if full {
        return false;
      }
      buffer, full := t, true;
      accepted := true;
    }

    /** The buffer is tested first and dropped if it differs; then the source is searched. */
    method IgnoreKind(kind: Symbol) returns (r: Result<()>)
      modifies this
      ensures !full && Out(r, Stream()) == Ignore(old(Stream()), kind)
    {
      if full {
        full := false;
        assert Stream() == old(Stream())[1..];
        if Is(buffer, kind) {
          return Ok(());
        }
      }
      r := SearchSource(kind);
    }

    /** The loop of `ignore`, with the buffer empty. */
    method SearchSource(kind: Symbol) returns (r: Result<()>)
      requires !full
      modifies this
      ensures !full && Out(r, Stream()) == Ignore(old(Stream()), kind)
    {
      var t := GetToken();
      while t.Ok? && !Is(t.value, kind)
        invariant !full && Ignore(old(Stream()), kind) == IgnoreAfter(t, Stream(), kind)
        decreases |Stream()|, t.Ok?
      {
        t := GetToken();
      }
      r := if t.Ok? then Ok(()) else Err(t.error);
    }
  }

  /** What `ignore` comes to when `t` has just been read and `s` is left. */
  ghost function IgnoreAfter<V>(t: Result<Token<V>>, s: seq<Lexeme<V>>, kind: Symbol): Out<(), V> {
    if t.Err? then Out(Err(t.error), s)
    else if Is(t.value, kind) then Out(Ok(()), s)
    else Ignore(s, kind)
  }

  class VariableMap<V> {
    var varmap: Vars<V>

    constructor (vars: Vars<V>)
      ensures varmap == vars
    {
      varmap := vars;
    }

    method DefineVariable(name: string, val: V) returns (r: Result<V>)
      modifies this
      ensures (r, varmap) == Define(old(varmap), name, val)
    {
      if name in varmap {
        return Err(Redefinition(name));
      }
      varmap := varmap[name := val];
      r := Ok(val);
    }

    method SetVariable(name: string, val: V) returns (r: Result<V>)
      modifies this
      ensures name in old(varmap) ==> r == Ok(val) && varmap == old(varmap)[name := val]
      ensures name !in old(varmap) ==> r == Err(Undefined(name)) && varmap == old(varmap)
    {
      if name !in varmap {
        return Err(Undefined(name));
      }
      varmap := varmap[name := val];
      r := Ok(val);
    }

    method GetVariable(name: string) returns (r: Result<V>)
      ensures r == Lookup(varmap, name)
    {
      r := if name in varmap then Ok(varmap[name]) else Err(Undefined(name));
    }
  }

  class CalculatorObject<V> {
    const ar: Arith<V>
    const ts: TokenStream<V>
    const vars: VariableMap<V>

    /** The stream reads `source`; `predefined` are the variables set up before the first statement. */
    constructor (ar: Arith<V>, source: seq<Lexeme<V>>, predefined: Vars<V>)
      ensures fresh(ts) && fresh(vars)
      ensures this.ar == ar && ts.Stream() == source && !ts.full && vars.varmap == predefined
    {
      this.ar := ar;
      ts := new TokenStream<V>(source);
      vars := new VariableMap<V>(predefined);
    }

    /** On success the buffer is empty. */
    method Primary() returns (r: Result<V>)
      modifies ts
      ensures Out(r, ts.Stream()) == CalculatorSpec.Primary(ar, old(ts.Stream()), vars.varmap)
      ensures r.Ok? ==> !ts.full
      decreases |ts.Stream()|, 0
    {
      var t := ts.GetToken();
      match t
      case Err(e) => r := Err(e);
      case Ok(Number(v)) => r := Ok(v);
      case Ok(Name(n)) => r := vars.GetVariable(n);
      case Ok(Sym(OpenParen)) =>
        r := Expression();
        if r.Ok? {
          var c := ts.GetToken();
          if !Is(c.value, CloseParen) {
            r := Err(CloseParenExpected);
          }
        }
      case Ok(Sym(Minus)) =>
        r := Primary();
        if r.Ok? {
          r := Ok(ar.neg(r.value));
        }
      case Ok(Sym(Plus)) => r := Primary();
      case Ok(Sym(_)) => r := Err(PrimaryExpected);
    }

    /** The right operand: a whole term after `%`, which leaves the buffer full, otherwise a primary. */
    method Operand(op: Symbol) returns (r: Result<V>)
      modifies ts
      ensures Out(r, ts.Stream()) == if op == Modulus then CalculatorSpec.Term(ar, old(ts.Stream()), vars.varmap)
                                     else CalculatorSpec.Primary(ar, old(ts.Stream()), vars.varmap)
      decreases |ts.Stream()|, 2
    {
      if op == Modulus {
        r := Term();
      } else {
        r := Primary();
      }
    }

    /** On success the token that ended the term is pushed back. */
    method Term() returns (r: Result<V>)
      modifies ts
      ensures Out(r, ts.Stream()) == CalculatorSpec.Term(ar, old(ts.Stream()), vars.varmap)
      ensures r.Ok? ==> ts.full
      decreases |ts.Stream()|, 1
    {
      ghost var n := |ts.Stream()|;
      ghost var all := CalculatorSpec.Term(ar, ts.Stream(), vars.varmap);
      r := Primary();
      if r.Err? {
        return;
      }
      var left := r.value;
      while true
        invariant |ts.Stream()| < n
        invariant all == TermLoop(ar, left, ts.Stream(), vars.varmap)
        decreases |ts.Stream()|
      {
        ghost var s := ts.Stream();
        var t := ts.GetToken();
        if t.Err? {
          return Err(t.error);
        }
        if !MulOp(t.value) {
          var accepted := ts.Putback(t.value);
          assert accepted && ts.Stream() == s;
          return Ok(left);
        }
        var op := t.value.s;
        assert s == [Tok(Sym(op))] + ts.Stream();
        TermLoopStep(ar, left, op, ts.Stream(), vars.varmap);
        r := Operand(op);
        if r.Err? {
          return;
        }
        r := Operate(ar, op, left, r.value);
        if r.Err? {
          return;
        }
        left := r.value;
      }
    }

    /** On success the token that ended the expression is pushed back. */
    method Expression() returns (r: Result<V>)
      modifies ts
      ensures Out(r, ts.Stream()) == CalculatorSpec.Expression(ar, old(ts.Stream()), vars.varmap)
      ensures r.Ok? ==> ts.full
      decreases |ts.Stream()|, 3
    {
      ghost var n := |ts.Stream()|;
      ghost var all := CalculatorSpec.Expression(ar, ts.Stream(), vars.varmap);
      r := Term();
      if r.Err? {
        return;
      }
      var left := r.value;
      while true
        invariant ts.full && |ts.Stream()| < n && EndsTerm(ts.Stream())
        invariant all == ExpressionLoop(ar, left, ts.Stream(), vars.varmap)
        decreases |ts.Stream()|
      {
        ghost var s := ts.Stream();
        var t := ts.GetToken();
        if !AddOp(t.value) {
          var accepted := ts.Putback(t.value);
          assert accepted && ts.Stream() == s;
          return Ok(left);
        }
        r := Term();
        if r.Err? {
          return;
        }
        left := Operate(ar, t.value.s, left, r.value).value;
      }
    }

    method Declaration() returns (r: Result<V>)
      modifies ts, vars
      ensures (Out(r, ts.Stream()), vars.varmap) == CalculatorSpec.Declaration(ar, old(ts.Stream()), old(vars.varmap))
      ensures r.Ok? ==> ts.full
    {
      var t := ts.GetToken();
      if t.Err? {
        return Err(t.error);
      }
      if !t.value.Name? {
        return Err(NameExpected);
      }
      var name := t.value.name;
      t := ts.GetToken();
      if t.Err? {
        return Err(t.error);
      }
      if !Is(t.value, Equals) {
        return Err(EqualsMissing(name));
      }
      r := Expression();
      if r.Ok? {
        r := vars.DefineVariable(name, r.value);
      }
    }

    method Statement() returns (r: Result<V>)
      modifies ts, vars
      ensures (Out(r, ts.Stream()), vars.varmap) == CalculatorSpec.Statement(ar, old(ts.Stream()), old(vars.varmap))
      ensures r.Ok? ==> ts.full
    {
      ghost var s := ts.Stream();
      var t := ts.GetToken();
      if t.Err? {
        return Err(t.error);
      }
      if Is(t.value, Let) {
        r := Declaration();
      } else {
        var accepted := ts.Putback(t.value);
        assert accepted && ts.Stream() == s;
        r := Expression();
      }
    }

    /** Reads up to and including the first token that is not `;`. */
    method NextStart() returns (t: Result<Token<V>>)
      modifies ts
      ensures !ts.full && Out(t, ts.Stream()) == SkipPrints(old(ts.Stream()))
    {
      t := ts.GetToken();
      while t.Ok? && Is(t.value, Print)
        invariant !ts.full
        invariant SkipPrints(old(ts.Stream()))
               == if t.Ok? && Is(t.value, Print) then SkipPrints(ts.Stream()) else Out(t, ts.Stream())
        decreases |ts.Stream()|, t.Ok?
      {
        t := ts.GetToken();
      }
    }

    /** The main loop: what is reported, in order, and how it ends. */
    method Run() returns (session: Session<V>)
      modifies ts, vars
      ensures session == CalculatorSpec.Run(ar, old(ts.Stream()), old(vars.varmap))
    {
      ghost var all := CalculatorSpec.Run(ar, ts.Stream(), vars.varmap);
      var log := [];
      while true
        invariant Logs(log, CalculatorSpec.Run(ar, ts.Stream(), vars.varmap)) == all
        decreases |ts.Stream()|
      {
        ghost var s, v := ts.Stream(), vars.varmap;
        var t := NextStart();
        var r;
        if t.Err? {
          r := Err(t.error);
        } else if Is(t.value, Quit) {
          LogsStep(log, Session([], Finished));
          return Session(log, Finished);
        } else {
          var accepted := ts.Putback(t.value);
          assert accepted;
          r := Statement();
        }
        if r.Err? {
          ghost var m := ts.Stream();
          assert CalculatorSpec.Run(ar, s, v) == Recover(ar, r.error, m, vars.varmap);
          var i := ts.IgnoreKind(Print);
          if i.Err? {
            LogsStep(log, Session([r], Aborted(i.error)));
            return Session(log + [r], Aborted(i.error));
          }
        }
        ghost var rest := CalculatorSpec.Run(ar, ts.Stream(), vars.varmap);
        assert CalculatorSpec.Run(ar, s, v) == Logged(r, rest);
        LogsLogged(log, r, rest);
        log := log + [r];
      }
    }
  }

  /** Reports made so far, then those of the rest of the session. */
  function Logs<V>(log: seq<Result<V>>, s: Session<V>): Session<V> {
    Session(log + s.log, s.end)
  }

  lemma LogsLogged<V>(log: seq<Result<V>>, r: Result<V>, s: Session<V>)
    ensures Logs(log, Logged(r, s)) == Logs(log + [r], s)
  {
    assert log + ([r] + s.log) == (log + [r]) + s.log;
  }

  lemma LogsStep<V>(log: seq<Result<V>>, s: Session<V>)
    ensures s.log == [] ==> Logs(log, s) == Session(log, s.end)
  {
  }
}
