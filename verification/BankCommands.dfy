/**
 Undoable bank commands: single deposits and withdrawals, composites that run them all, and
 dependent composites that stop at the first failure. Accounts may be shared between commands.
 The first part works on balances as values; the classes at the end update them in place.
 */
module BankCommands {

  const OVERDRAFT_LIMIT: int := -500

  datatype Action = Deposit | Withdraw

  datatype Command<A> = Command(account: A, action: Action, amount: int)

  type Balances<A> = map<A, int>

  /** The new balance and whether the operation went through. */
  function Operate(balance: int, action: Action, amount: int): (int, bool) {
    match action
    case Deposit => (balance + amount, true)
    case Withdraw => if balance - amount >= OVERDRAFT_LIMIT then (balance - amount, true) else (balance, false)
  }

  ghost predicate Known<A>(b: Balances<A>, cs: seq<Command<A>>) {
    forall i :: 0 <= i < |cs| ==> cs[i].account in b
  }

  function Call<A>(b: Balances<A>, c: Command<A>): (Balances<A>, bool)
    requires c.account in b
  {
    var (v, ok) := Operate(b[c.account], c.action, c.amount);
    (b[c.account := v], ok)
  }

  /** The opposite operation, if the command succeeded. Undoing a deposit may itself be refused. */
  function Undo<A>(b: Balances<A>, c: Command<A>, succeeded: bool): Balances<A>
    requires c.account in b
  {
    if !succeeded then b
    else b[c.account := Operate(b[c.account], if c.action == Deposit then Withdraw else Deposit, c.amount).0]
  }

  /** `call` of a composite: the final balances and every command's flag. `ok` is the previous flag. */
  function CallAll<A>(b: Balances<A>, cs: seq<Command<A>>, dependent: bool, ok: bool): (r: (Balances<A>, seq<bool>))
    requires Known(b, cs)
    ensures r.0.Keys == b.Keys && |r.1| == |cs|
    decreases |cs|
  {
    if cs == [] then (b, [])
    else if dependent && !ok then
      var rest := CallAll(b, cs[1..], dependent, ok);
      (rest.0, [false] + rest.1)
    else
      var (b', ok') := Call(b, cs[0]);
      var rest := CallAll(b', cs[1..], dependent, ok');
      (rest.0, [ok'] + rest.1)
  }

  /** `undo` of a composite, last command first. */
  function UndoAll<A>(b: Balances<A>, cs: seq<Command<A>>, flags: seq<bool>): (r: Balances<A>)
    requires Known(b, cs) && |flags| == |cs|
    ensures r.Keys == b.Keys
    decreases |cs|
  {
    if cs == [] then b else Undo(UndoAll(b, cs[1..], flags[1..]), cs[0], flags[0])
  }

  // ----- when undo restores -----

  /** Every deposit that is made, and that changes anything, finds its account at or above the limit. */
  ghost predicate Undoable<A>(b: Balances<A>, cs: seq<Command<A>>, dependent: bool, ok: bool)
    requires Known(b, cs)
    decreases |cs|
  {
    if cs == [] then true
    else if dependent && !ok then Undoable(b, cs[1..], dependent, ok)
    else
      && (cs[0].action == Deposit && cs[0].amount != 0 ==> b[cs[0].account] >= OVERDRAFT_LIMIT)
      && Undoable(Call(b, cs[0]).0, cs[1..], dependent, Call(b, cs[0]).1)
  }

  function CallThenUndo<A>(b: Balances<A>, cs: seq<Command<A>>, dependent: bool, ok: bool): Balances<A>
    requires Known(b, cs)
  {
    var (b', flags) := CallAll(b, cs, dependent, ok);
    UndoAll(b', cs, flags)
  }

  lemma CallThenUndoStep<A>(b: Balances<A>, cs: seq<Command<A>>, dependent: bool, ok: bool)
    requires Known(b, cs) && cs != []
    ensures CallThenUndo(b, cs, dependent, ok)
         == if dependent && !ok then CallThenUndo(b, cs[1..], dependent, ok)
            else
              var (b', ok') := Call(b, cs[0]);
              Undo(CallThenUndo(b', cs[1..], dependent, ok'), cs[0], ok')
  {
    var (final, flags) := CallAll(b, cs, dependent, ok);
    assert flags[1..] == if dependent && !ok then CallAll(b, cs[1..], dependent, ok).1
                         else CallAll(Call(b, cs[0]).0, cs[1..], dependent, Call(b, cs[0]).1).1;
  }

  /** For any amounts and balances, plain or dependent: undoing an undoable composite restores every balance. */
  lemma {:induction false} UndoRestores<A>(b: Balances<A>, cs: seq<Command<A>>, dependent: bool, ok: bool)
    requires Known(b, cs) && Undoable(b, cs, dependent, ok)
    ensures CallThenUndo(b, cs, dependent, ok) == b
    decreases |cs|
  {
    if cs != [] {
      CallThenUndoStep(b, cs, dependent, ok);
      if dependent && !ok {
        UndoRestores(b, cs[1..], dependent, ok);
      } else {
        var (b', ok') := Call(b, cs[0]);
        UndoRestores(b', cs[1..], dependent, ok');
      }
    }
  }

  // ----- and when it does not, for non-negative amounts -----

  ghost predicate NonNegative<A>(cs: seq<Command<A>>) {
    forall i :: 0 <= i < |cs| ==> cs[i].amount >= 0
  }

  ghost predicate Above<A>(high: Balances<A>, low: Balances<A>) {
    high.Keys == low.Keys && forall a :: a in low ==> high[a] >= low[a]
  }

  /** Undoing from above the called state stays above the original state, strictly if it was strictly above. */
  lemma UndoStaysAbove<A>(b: Balances<A>, c: Command<A>, high: Balances<A>)
    requires c.account in b && c.amount >= 0 && Above(high, Call(b, c).0)
    ensures Above(Undo(high, c, Call(b, c).1), b)
    ensures high != Call(b, c).0 ==> Undo(high, c, Call(b, c).1) != b
    ensures c.action == Deposit && c.amount != 0 && b[c.account] < OVERDRAFT_LIMIT ==> Undo(high, c, Call(b, c).1) != b
  {
    var (b', ok) := Call(b, c);
    var u := Undo(high, c, ok);
    if high != b' {
      var a :| a in b' && high[a] != b'[a];
      assert u[a] != b[a];
    }
    if c.action == Deposit && c.amount != 0 && b[c.account] < OVERDRAFT_LIMIT {
      assert u[c.account] != b[c.account];
    }
  }

  lemma {:induction false} UndoAllStaysAbove<A>(b: Balances<A>, cs: seq<Command<A>>, dependent: bool, ok: bool)
    requires Known(b, cs) && NonNegative(cs)
    ensures Above(CallThenUndo(b, cs, dependent, ok), b)
    ensures !Undoable(b, cs, dependent, ok) ==> CallThenUndo(b, cs, dependent, ok) != b
    decreases |cs|
  {
    if cs != [] {
      CallThenUndoStep(b, cs, dependent, ok);
      if dependent && !ok {
        UndoAllStaysAbove(b, cs[1..], dependent, ok);
      } else {
        var (b', ok') := Call(b, cs[0]);
        UndoAllStaysAbove(b', cs[1..], dependent, ok');
        UndoStaysAbove(b, cs[0], CallThenUndo(b', cs[1..], dependent, ok'));
      }
    }
  }

  /** With non-negative amounts, call and undo restore the balances exactly when the composite is undoable. */
  lemma UndoRestoresExactlyWhen<A>(b: Balances<A>, cs: seq<Command<A>>, dependent: bool)
    requires Known(b, cs) && NonNegative(cs)
    ensures CallThenUndo(b, cs, dependent, true) == b <==> Undoable(b, cs, dependent, true)
  {
    UndoAllStaysAbove(b, cs, dependent, true);
    if Undoable(b, cs, dependent, true) {
      UndoRestores(b, cs, dependent, true);
    }
  }

  /** With a negative deposit, a later deposit can find its account below the limit; then undo does not restore. */
  lemma NegativeDepositIsNotUndone()
    ensures var cs := [Command(0, Deposit, -600), Command(0, Deposit, 5)];
            CallThenUndo(map[0 := 0], cs, false, true) == map[0 := 5]
  {
    var cs := [Command(0, Deposit, -600), Command(0, Deposit, 5)];
    assert cs[1..] == [Command(0, Deposit, 5)];
    CallThenUndoStep(map[0 := 0], cs, false, true);
    CallThenUndoStep(map[0 := -600], cs[1..], false, true);
  }

  // ----- the limit -----

  ghost predicate WithinLimit<A>(b: Balances<A>) {
    forall a :: a in b ==> b[a] >= OVERDRAFT_LIMIT
  }

  /** With non-negative amounts no call and no undo takes a balance below the limit, and every composite is undoable. */
  lemma {:induction false} LimitIsKept<A>(b: Balances<A>, cs: seq<Command<A>>, dependent: bool, ok: bool)
    requires Known(b, cs) && NonNegative(cs) && WithinLimit(b)
    ensures WithinLimit(CallAll(b, cs, dependent, ok).0)
    ensures Undoable(b, cs, dependent, ok)
    decreases |cs|
  {
    if cs != [] {
      if dependent && !ok {
        LimitIsKept(b, cs[1..], dependent, ok);
      } else {
        var (b', ok') := Call(b, cs[0]);
        LimitIsKept(b', cs[1..], dependent, ok');
      }
    }
  }

  lemma {:induction false} UndoKeepsLimit<A>(b: Balances<A>, cs: seq<Command<A>>, flags: seq<bool>)
    requires Known(b, cs) && NonNegative(cs) && WithinLimit(b) && |flags| == |cs|
    ensures WithinLimit(UndoAll(b, cs, flags))
    decreases |cs|
  {
    if cs != [] {
      UndoKeepsLimit(b, cs[1..], flags[1..]);
    }
  }

  /** The promise of the pattern: from balances within the limit, call and undo restore every balance. */
  lemma CallThenUndoIsIdentity<A>(b: Balances<A>, cs: seq<Command<A>>, dependent: bool)
    requires Known(b, cs) && NonNegative(cs) && WithinLimit(b)
    ensures CallThenUndo(b, cs, dependent, true) == b
  {
    LimitIsKept(b, cs, dependent, true);
    UndoRestores(b, cs, dependent, true);
  }

  // ----- money transfer -----

  function Transfer<A>(from: A, to: A, amount: int): seq<Command<A>> {
    [Command(from, Withdraw, amount), Command(to, Deposit, amount)]
  }

  /** The sum over a list of accounts. */
  function Total<A>(b: Balances<A>, accounts: seq<A>): int
    requires forall i :: 0 <= i < |accounts| ==> accounts[i] in b
  {
    if accounts == [] then 0 else b[accounts[0]] + Total(b, accounts[1..])
  }

  lemma {:induction false} TotalUpdate<A>(b: Balances<A>, accounts: seq<A>, a: A, v: int)
    requires forall i :: 0 <= i < |accounts| ==> accounts[i] in b
    requires forall i, j :: 0 <= i < j < |accounts| ==> accounts[i] != accounts[j]
    requires a in b
    ensures Total(b[a := v], accounts) == Total(b, accounts) + (if a in accounts then v - b[a] else 0)
  {
    if accounts != [] {
      TotalUpdate(b, accounts[1..], a, v);
      assert accounts == [accounts[0]] + accounts[1..];
    }
  }

  /**
   A transfer is all or nothing: if the withdrawal is refused no balance changes; otherwise the
   amount moves. Either way the total over any list holding both accounts is the same, even when
   the two accounts are one.
   */
  lemma TransferConserves<A>(b: Balances<A>, from: A, to: A, amount: int, accounts: seq<A>)
    requires from in b && to in b && from in accounts && to in accounts
    requires forall i :: 0 <= i < |accounts| ==> accounts[i] in b
    requires forall i, j :: 0 <= i < j < |accounts| ==> accounts[i] != accounts[j]
    ensures var (b', flags) := CallAll(b, Transfer(from, to, amount), true, true);
            && Total(b', accounts) == Total(b, accounts)
            && flags == [flags[0], flags[0]]
            && (flags[0] <==> b[from] - amount >= OVERDRAFT_LIMIT)
            && (!flags[0] ==> b' == b)
            && (flags[0] && from != to ==> b' == b[from := b[from] - amount][to := b[to] + amount])
            && (from == to ==> b' == b)
  {
    var cs := Transfer(from, to, amount);
    var (b1, ok) := Call(b, cs[0]);
    TotalUpdate(b, accounts, from, b1[from]);
    assert cs[1..] == [cs[1]];
    CallAllOne(b1, cs[1], true, ok);
    if ok {
      TotalUpdate(b1, accounts, to, Call(b1, cs[1]).0[to]);
    }
  }

  lemma CallAllOne<A>(b: Balances<A>, c: Command<A>, dependent: bool, ok: bool)
    requires c.account in b
    ensures CallAll(b, [c], dependent, ok)
         == if dependent && !ok then (b, [false]) else (Call(b, c).0, [Call(b, c).1])
  {
    assert [c][1..] == [];
    var (b', ok') := Call(b, c);
    assert [false] + [] == [false] && [ok'] + [] == [ok'];
    assert CallAll(b, [c][1..], dependent, ok) == (b, []);
    assert CallAll(b', [c][1..], dependent, ok') == (b', []);
  }

  // ----- the objects -----

  class BankAccount {
    var balance: int

    constructor ()
      ensures balance == 0
    {
      balance := 0;
    }

    method DepositAmount(amount: int)
      modifies this
      ensures balance == Operate(old(balance), Deposit, amount).0
    {
      balance := balance + amount;
    }

    method WithdrawAmount(amount: int) returns (ok: bool)
      modifies this
      ensures (balance, ok) == Operate(old(balance), Withdraw, amount)
    {
      if balance - amount >= OVERDRAFT_LIMIT {
        balance := balance - amount;
        return true;
      }
      ok := false;
    }
  }

  class BankAccountCommand {
    const account: BankAccount
    const action: Action
    const amount: int
    var succeeded: bool

    constructor (account: BankAccount, action: Action, amount: int)
      ensures this.account == account && this.action == action && this.amount == amount && !succeeded
    {
      this.account, this.action, this.amount, succeeded := account, action, amount, false;
    }

    function AsValue(): Command<BankAccount> {
      Command(account, action, amount)
    }

    method CallCommand()
      modifies this, account
      ensures (account.balance, succeeded) == Operate(old(account.balance), action, amount)
    {
      match action
      case Deposit =>
        account.DepositAmount(amount);
        succeeded := true;
      case Withdraw =>
        succeeded := account.WithdrawAmount(amount);
    }

    method UndoCommand()
      modifies account
      ensures var inverse := if action == Deposit then Withdraw else Deposit;
              account.balance == if succeeded then Operate(old(account.balance), inverse, amount).0
                                 else old(account.balance)
    {
      if !succeeded {
        return;
      }
      match action
      case Withdraw => account.DepositAmount(amount);
      case Deposit => var _ := account.WithdrawAmount(amount);
    }
  }

  /** `CompositeBankAccountCommand`, and `DependentCompositeCommand` when `dependent`. */
  class CompositeCommand {
    const commands: seq<BankAccountCommand>
    const dependent: bool

    /** The stored commands are copies, so they are distinct; their accounts need not be. */
    constructor (commands: seq<BankAccountCommand>, dependent: bool)
      requires forall i, j :: 0 <= i < j < |commands| ==> commands[i] != commands[j]
      ensures this.commands == commands && this.dependent == dependent && Good()
    {
      this.commands, this.dependent := commands, dependent;
    }

    ghost predicate Good() {
      forall i, j :: 0 <= i < j < |commands| ==> commands[i] != commands[j]
    }

    ghost function Accounts(): set<BankAccount> {
      set i | 0 <= i < |commands| :: commands[i].account
    }

    ghost function CurrentBalances(): Balances<BankAccount>
      reads Accounts()
    {
      map a | a in Accounts() :: a.balance
    }

    function Specs(): (cs: seq<Command<BankAccount>>)
      ensures |cs| == |commands| && forall i :: 0 <= i < |cs| ==> cs[i] == commands[i].AsValue()
    {
      seq(|commands|, i requires 0 <= i < |commands| => commands[i].AsValue())
    }

    ghost function Flags(): (f: seq<bool>)
      reads commands
      ensures |f| == |commands| && forall i :: 0 <= i < |f| ==> f[i] == commands[i].succeeded
    {
      seq(|commands|, i requires 0 <= i < |commands| reads commands => commands[i].succeeded)
    }

    lemma AllKnown()
      ensures Known(CurrentBalances(), Specs())
    {
      forall i | 0 <= i < |commands| ensures Specs()[i].account in Accounts() {
        assert commands[i].account in Accounts();
      }
    }

    lemma KnownAccount(i: nat)
      requires i < |commands|
      ensures commands[i].account in Accounts()
    {
    }

    /** One iteration of `call`: the command runs, or is marked as not succeeded. */
    method CallOne(i: nat, ok: bool) returns (ok': bool)
      requires Good() && i < |commands|
      modifies commands[i], commands[i].account
      ensures commands[i].account in Accounts()
      ensures ok' == (if dependent && !ok then ok else commands[i].succeeded)
      ensures Flags() == old(Flags())[i := commands[i].succeeded]
      ensures (CurrentBalances(), commands[i].succeeded)
           == if dependent && !ok then (old(CurrentBalances()), false) else Call(old(CurrentBalances()), Specs()[i])
    {
      KnownAccount(i);
      ok' := ok;
      ghost var b, c := CurrentBalances(), commands[i];
      if ok || !dependent {
        commands[i].CallCommand();
        ok' := commands[i].succeeded;
        assert CurrentBalances() == b[c.account := c.account.balance];
      } else {
        commands[i].succeeded := false;
        assert CurrentBalances() == b;
      }
    }

    /** What the commands from `i` on still have to do. */
    ghost function Rest(i: nat, b: Balances<BankAccount>, ok: bool): (Balances<BankAccount>, seq<bool>)
      requires i <= |commands| && Known(b, Specs())
    {
      CallAll(b, Specs()[i..], dependent, ok)
    }

    lemma RestStep(i: nat, b: Balances<BankAccount>, ok: bool)
      requires i < |commands| && Known(b, Specs())
      ensures Rest(i, b, ok)
           == if dependent && !ok then (Rest(i + 1, b, ok).0, [false] + Rest(i + 1, b, ok).1)
              else
                var (b', ok') := Call(b, Specs()[i]);
                (Rest(i + 1, b', ok').0, [ok'] + Rest(i + 1, b', ok').1)
    {
      assert Specs()[i..][1..] == Specs()[i + 1..];
    }

    method CallComposite()
      requires Good()
      modifies commands, Accounts()
      ensures Known(old(CurrentBalances()), Specs())
      ensures (CurrentBalances(), Flags()) == CallAll(old(CurrentBalances()), Specs(), dependent, true)
    {
      AllKnown();
      ghost var all := CallAll(CurrentBalances(), Specs(), dependent, true);
      BothEnds(CurrentBalances(), Flags(), true);
      var ok := true;
      for i := 0 to |commands|
        invariant Known(CurrentBalances(), Specs())
        invariant all == Overall(i, CurrentBalances(), Flags(), ok)
      {
        KnownAccount(i);
        ghost var b, flags, before := CurrentBalances(), Flags(), ok;
        ok := CallOne(i, ok);
        AllKnown();
        CallStep(i, b, flags, before, CurrentBalances(), commands[i].succeeded);
      }
      BothEnds(CurrentBalances(), Flags(), ok);
    }

    /** The outcome of the whole loop, seen from iteration `i`. */
    ghost function Overall(i: nat, b: Balances<BankAccount>, flags: seq<bool>, ok: bool):
      (Balances<BankAccount>, seq<bool>)
      requires i <= |commands| == |flags| && Known(b, Specs())
    {
      (Rest(i, b, ok).0, flags[..i] + Rest(i, b, ok).1)
    }

    lemma BothEnds(b: Balances<BankAccount>, flags: seq<bool>, ok: bool)
      requires |flags| == |commands| && Known(b, Specs())
      ensures Overall(0, b, flags, ok) == CallAll(b, Specs(), dependent, ok)
      ensures Overall(|commands|, b, flags, ok) == (b, flags)
    {
      assert Specs()[0..] == Specs() && Specs()[|commands|..] == [];
      assert flags[..0] + Rest(0, b, ok).1 == Rest(0, b, ok).1;
      assert flags[..|commands|] + [] == flags;
    }

    /** What the flags so far and the rest of the run amount to does not change in an iteration. */
    lemma CallStep(i: nat, b: Balances<BankAccount>, flags: seq<bool>, ok: bool, b': Balances<BankAccount>, f: bool)
      requires i < |commands| && Known(b, Specs()) && Known(b', Specs()) && |flags| == |commands|
      requires (b', f) == if dependent && !ok then (b, false) else Call(b, Specs()[i])
      ensures Overall(i, b, flags, ok) == Overall(i + 1, b', flags[i := f], if dependent && !ok then ok else f)
    {
      RestStep(i, b, ok);
      var rest := Rest(i + 1, b', if dependent && !ok then ok else f).1;
      assert flags[..i] + ([f] + rest) == flags[i := f][..i + 1] + rest;
    }

    /** One iteration of `undo`. */
    method UndoOne(i: nat)
      requires i < |commands|
      modifies commands[i].account
      ensures commands[i].account in Accounts() && Flags() == old(Flags())
      ensures CurrentBalances() == Undo(old(CurrentBalances()), Specs()[i], Flags()[i])
    {
      KnownAccount(i);
      commands[i].UndoCommand();
    }

    method UndoComposite()
      requires Good()
      modifies Accounts()
      ensures Known(old(CurrentBalances()), Specs()) && Flags() == old(Flags())
      ensures CurrentBalances() == UndoAll(old(CurrentBalances()), Specs(), Flags())
    {
      AllKnown();
      ghost var b0, flags := CurrentBalances(), Flags();
      ghost var b := b0;
      var i := |commands|;
      while i > 0
        invariant 0 <= i <= |commands| && b == CurrentBalances() && Flags() == flags
        invariant b == UndoAll(b0, Specs()[i..], flags[i..])
      {
        i := i - 1;
        KnownAccount(i);
        UndoAllStep(b0, i, flags);
        UndoOne(i);
        b := CurrentBalances();
      }
      assert Specs()[0..] == Specs() && flags[0..] == flags;
    }

    lemma UndoAllStep(b: Balances<BankAccount>, i: nat, flags: seq<bool>)
      requires i < |commands| && Known(b, Specs()) && |flags| == |commands|
      ensures UndoAll(b, Specs()[i..], flags[i..])
           == Undo(UndoAll(b, Specs()[i + 1..], flags[i + 1..]), Specs()[i], flags[i])
    {
      assert Specs()[i..][1..] == Specs()[i + 1..] && flags[i..][1..] == flags[i + 1..];
    }
  }

  /** On the objects themselves: after call and undo every account has the balance it had. */
  method CallAndUndo(composite: CompositeCommand)
    requires composite.Good() && NonNegative(composite.Specs())
    requires forall a :: a in composite.Accounts() ==> a.balance >= OVERDRAFT_LIMIT
    modifies composite.commands, composite.Accounts()
    ensures forall a :: a in composite.Accounts() ==> a.balance == old(a.balance)
  {
    composite.AllKnown();
    ghost var b := composite.CurrentBalances();
    CallThenUndoIsIdentity(b, composite.Specs(), composite.dependent);
    composite.CallComposite();
    composite.UndoComposite();
    assert composite.CurrentBalances() == b;
    forall a | a in composite.Accounts() ensures a.balance == old(a.balance) {
      assert composite.CurrentBalances()[a] == b[a];
    }
  }
}
